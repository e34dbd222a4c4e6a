/** The TensorFlow framework adapter (bentoml/_internal/frameworks/tensorflow_v2.py):
    the module check of `get`, the default signatures of `save_model`, and
    the runnable class `get_runnable` builds from a model's descriptor, with
    its per-instance method cache and argument handling. */
module Tensorflow {
  import opened Results
  import opened Values
  import opened Tags
  import opened Signatures
  import opened Infos
  import opened Models

  /** The name models are saved under. */
  const ModuleName: string := "bentoml.tensorflow"
  /** The adapter's own module path, also accepted on load. */
  const ImplementationModule: string := "bentoml._internal.frameworks.tensorflow_v2"
  const ApiVersion: string := "v1"

  // ---------------------------------------------------------------------
  // get and save_model

  /** The modules whose models this adapter loads. */
  predicate Accepts(moduleName: string) {
    moduleName == ModuleName || moduleName == ImplementationModule
  }

  /** `get`: fetches the model from the store and refuses, with NotFound,
      one saved by another framework. */
  function Get<R>(store: Store, tag: Tag, env: Env): (r: Result<Model<R>>)
    ensures r.Ok? <==> Models.Get<R>(store, tag, env).Ok? && Accepts(Models.Get<R>(store, tag, env).value.info.moduleName)
    ensures r.Ok? ==> r == Models.Get<R>(store, tag, env)
    ensures Models.Get<R>(store, tag, env).Ok? && r.Err? ==> r.error.NotFound?
  {
    var model :- Models.Get<R>(store, tag, env);
    if !Accepts(model.info.moduleName) then
      Err(NotFound("Model " + tag.name + ":" + tag.version + " was saved with module " + model.info.moduleName
                   + ", failed loading with " + ModuleName + "."))
    else
      Ok(model)
  }

  /** The signatures used when `save_model` is given none: one method,
      `__call__`, not batchable. */
  function DefaultSignatures(given: Option<map<string, SignatureInput>>): (r: map<string, SignatureInput>)
    ensures given.Some? ==> r == given.value
    ensures given.None? ==> ConvertSignatures(r) == Ok(map["__call__" := Signatures.Default])
  {
    if given.Some? then given.value
    else
      var r := map["__call__" := Raw(map["batchable" := VBool(false)])];
      assert ConvertSignatures(r).value == map["__call__" := Signatures.Default];
      r
  }

  /** `save_model`: creates the model under this adapter's module name and
      API version with a TensorFlow context, writes the SavedModel files
      (`artifacts`, what `tf.saved_model.save` produces), then flushes the
      descriptor and saves the model to the store, as the `create` context
      manager does on a clean exit. The generated version, the TensorFlow
      version and the environment are parameters. */
  function SaveModel(
    name: string, version: string, tfVersion: string, artifacts: set<string>,
    signatures: Option<map<string, SignatureInput>>, labels: Option<map<string, string>>,
    customObjects: Option<map<string, Value>>, metadata: Option<map<string, Value>>,
    env: Env, store: Store): (r: (Store, Result<Tag>))
    ensures r.1.Ok? ==> r.1.value == Tag(name, version) && r.1.value in r.0
    ensures r.1.Err? ==> r.0 == store
    ensures signatures.None? ==> r.1.Ok?
    ensures forall t :: t != Tag(name, version) ==> (t in r.0 <==> t in store) && (t in store ==> r.0[t] == store[t])
  {
    var context := Context("tensorflow", map["tensorflow" := tfVersion], env.bentomlVersion, env.pythonVersion);
    var created := Create<()>(name, version, ModuleName, ApiVersion, DefaultSignatures(signatures),
                              labels, None, customObjects, metadata, context, env.now);
    if created.Err? then (store, Err(created.error))
    else
      var model := created.value.(fs := created.value.fs.(artifacts := artifacts));
      // a freshly created model has no pickle and a map of custom objects,
      // so flushing succeeds, and a flushed model is valid, so saving does
      var flushed := Flush(model).value;
      var (saved, _) := Save(flushed, store);
      (saved, Ok(model.tag))
  }

  /** A model saved without signatures loads back through `get` with the
      default `__call__` signature, this adapter's module and API version,
      and the given artifacts. */
  lemma SaveModelThenGet(
    name: string, version: string, tfVersion: string, artifacts: set<string>,
    labels: Option<map<string, string>>, metadata: Option<map<string, Value>>,
    env: Env, store: Store)
    ensures var (saved, tag) := SaveModel(name, version, tfVersion, artifacts, None, labels, None, metadata, env, store);
            && tag == Ok(Tag(name, version))
            && Get<()>(saved, tag.value, env).Ok?
            && Get<()>(saved, tag.value, env).value.info.signatures == map["__call__" := Signatures.Default]
            && Get<()>(saved, tag.value, env).value.info.moduleName == ModuleName
            && Get<()>(saved, tag.value, env).value.info.apiVersion == ApiVersion
            && Get<()>(saved, tag.value, env).value.fs.artifacts == artifacts
  {
    var context := Context("tensorflow", map["tensorflow" := tfVersion], env.bentomlVersion, env.pythonVersion);
    var sigs := DefaultSignatures(None);
    var created := Create<()>(name, version, ModuleName, ApiVersion, sigs, labels, None, None, metadata, context, env.now);
    assert created.Ok?;
    var model := created.value.(fs := created.value.fs.(artifacts := artifacts));
    var flushed := Flush(model).value;
    assert flushed.info.signatures == map["__call__" := Signatures.Default];
    SaveThenGet(flushed, store, env);
  }

  // ---------------------------------------------------------------------
  // get_runnable: the runnable class

  /** A run method as registered on the class: its name and the batching
      options copied from the signature. */
  datatype MethodConfig = MethodConfig(
    name: string, batchable: bool, batchDim: (int, int), inputSpec: Value, outputSpec: Value)

  /** The class `get_runnable` returns: the `partial_kwargs` option it
      closes over and its run methods by name. */
  datatype RunnableClass = RunnableClass(partialKwargs: Value, methods: map<string, MethodConfig>)

  function ConfigOf(name: string, s: Signature): MethodConfig {
    MethodConfig(name, s.batchable, s.batchDim, s.inputSpec, s.outputSpec)
  }

  /** `get_runnable`: `partial_kwargs` is the option of that name, the empty
      map when absent; one run method per signature. */
  function GetRunnable(info: Info): (r: RunnableClass)
    ensures r.partialKwargs == (if "partial_kwargs" in info.options then info.options["partial_kwargs"] else VMap(map[]))
    ensures r.methods.Keys == info.signatures.Keys
    ensures forall k :: k in r.methods ==> r.methods[k].name == k
  {
    RunnableClass(
      if "partial_kwargs" in info.options then info.options["partial_kwargs"] else VMap(map[]),
      map k | k in info.signatures :: ConfigOf(k, info.signatures[k]))
  }

  /** The signature a registered method was built from. */
  function SignatureOf(c: MethodConfig): Signature {
    Signature(c.batchable, c.batchDim, c.inputSpec, c.outputSpec)
  }

  /** Every registered method carries exactly its signature's batching
      options: the signatures can be read back from the class. */
  lemma RunnableMirrorsSignatures(info: Info)
    ensures var cls := GetRunnable(info);
            (map k | k in cls.methods :: SignatureOf(cls.methods[k])) == info.signatures
  {
  }

  /** The resolver `Model.to_runnable` uses for models of this adapter. */
  function Resolve(moduleName: string, info: Info): (r: Result<RunnableClass>)
    ensures r.Ok? <==> Accepts(moduleName)
    ensures r.Ok? ==> r.value.methods.Keys == info.signatures.Keys
  {
    if Accepts(moduleName) then Ok(GetRunnable(info))
    else Err(MissingModule(moduleName))
  }

  /** `__init__`'s device choice: the first GPU when any is visible. */
  function DeviceFor(gpus: nat): (r: string)
    ensures r == "/device:GPU:0" <==> gpus > 0
    ensures r == "/device:CPU:0" <==> gpus == 0
  {
    if gpus > 0 then "/device:GPU:0" else "/device:CPU:0"
  }

  // ---------------------------------------------------------------------
  // Runnable instances

  /** A runnable instance: its class, its device, the loaded model's
      callable attributes (of opaque type H) and the `methods_cache`. */
  datatype Instance<H> = Instance(
    cls: RunnableClass, device: string, model: map<string, H>, cache: map<string, RunMethod<H>>)

  /** A generated run method: the model's raw method and the keyword
      defaults bound to it (empty when no partial is applied). */
  datatype RunMethod<H> = RunMethod(raw: H, defaults: map<string, Value>)

  /** `TensorflowRunnable()` on a machine with `gpus` visible GPUs, with the
      model `load_model` returned. */
  function NewInstance<H>(cls: RunnableClass, gpus: nat, model: map<string, H>): (r: Instance<H>)
    ensures r.cache == map[] && r.device == DeviceFor(gpus)
    ensures r.cls == cls && r.model == model && Coherent(r)
  {
    Instance(cls, DeviceFor(gpus), model, map[])
  }

  /** `_gen_run_method` for the class `cls` and the loaded `model`: looks
      the method up on the model (missing: an attribute error), then the
      method's partial kwargs; a truthy entry must be a mapping and becomes
      the bound keyword defaults, a falsy one binds nothing. A non-mapping
      `partial_kwargs` has no `get`. */
  function GenRunMethod<H>(cls: RunnableClass, model: map<string, H>, name: string): (r: Result<RunMethod<H>>)
    ensures name !in model ==> r == Err(MissingAttribute(name))
    ensures name in model && !cls.partialKwargs.VMap? ==> r.Err?
    ensures r.Ok? ==> name in model && r.value.raw == model[name] && cls.partialKwargs.VMap?
    ensures r.Ok? ==>
              var pk := cls.partialKwargs.entries;
              if name in pk && Truthy(pk[name]) then pk[name].VMap? && r.value.defaults == pk[name].entries
              else r.value.defaults == map[]
    ensures name in model && cls.partialKwargs.VMap? ==>
              var pk := cls.partialKwargs.entries;
              (r.Err? <==> name in pk && Truthy(pk[name]) && !pk[name].VMap?)
  {
    if name !in model then Err(MissingAttribute(name))
    else if !cls.partialKwargs.VMap? then Err(MissingAttribute("get"))
    else
      var pk := cls.partialKwargs.entries;
      var methodKwargs := if name in pk then pk[name] else VNull;
      if !Truthy(methodKwargs) then Ok(RunMethod(model[name], map[]))
      else if methodKwargs.VMap? then Ok(RunMethod(model[name], methodKwargs.entries))
      else Err(WrongType("partial kwargs of a method must be a mapping"))
  }

  /** Every cached handle is the one `_gen_run_method` makes for its name. */
  ghost predicate Coherent<H>(inst: Instance<H>) {
    forall k :: k in inst.cache ==> GenRunMethod(inst.cls, inst.model, k) == Ok(inst.cache[k])
  }

  /** The cache lookup of `run_method`: a cached handle is used as is;
      otherwise one is generated and cached (a failure caches nothing). On a
      coherent instance the cache never changes the answer. */
  function MethodFor<H>(inst: Instance<H>, name: string): (r: (Instance<H>, Result<RunMethod<H>>))
    ensures name in inst.cache ==> r == (inst, Ok(inst.cache[name]))
    ensures name !in inst.cache ==> r.1 == GenRunMethod(inst.cls, inst.model, name)
    ensures r.0.cls == inst.cls && r.0.device == inst.device && r.0.model == inst.model
    ensures r.1.Ok? ==> name in r.0.cache && r.0.cache[name] == r.1.value
    ensures forall k :: k != name ==> (k in r.0.cache <==> k in inst.cache) && (k in inst.cache ==> r.0.cache[k] == inst.cache[k])
    ensures r.1.Err? ==> r.0 == inst
    ensures Coherent(inst) ==> Coherent(r.0) && r.1 == GenRunMethod(inst.cls, inst.model, name)
  {
    if name in inst.cache then (inst, Ok(inst.cache[name]))
    else
      var generated := GenRunMethod(inst.cls, inst.model, name);
      if generated.Ok? then (inst.(cache := inst.cache[name := generated.value]), generated)
      else (inst, generated)
  }

  /** Once a name's handle has been generated, every later lookup, whatever
      else was looked up in between, returns that same handle. */
  lemma MethodGeneratedOnce<H>(inst: Instance<H>, name: string, between: seq<string>)
    requires MethodFor(inst, name).1.Ok?
    ensures var (after, handle) := MethodFor(inst, name);
            MethodFor(LookUpAll(after, between), name) == (LookUpAll(after, between), handle)
  {
  }

  /** Looks up each name in turn, threading the instance. */
  function LookUpAll<H>(inst: Instance<H>, names: seq<string>): (r: Instance<H>)
    ensures r.cls == inst.cls && r.model == inst.model
    ensures forall k :: k in inst.cache ==> k in r.cache && r.cache[k] == inst.cache[k]
    ensures r.cache.Keys <= inst.cache.Keys + set i | 0 <= i < |names| :: names[i]
  {
    if |names| == 0 then inst
    else MethodFor(LookUpAll(inst, names[..|names| - 1]), names[|names| - 1]).0
  }

  // ---------------------------------------------------------------------
  // Calling a run method

  /** An argument: already a tensor (of type N) or anything else (of type F). */
  datatype Arg<N, F> = Native(tensor: N) | Foreign(item: F)

  /** `_mapping`: a tensor passes through; anything else goes through
      `tf.convert_to_tensor`, here `convert`. */
  function MapArg<N, F>(a: Arg<N, F>, convert: F -> N): (r: N)
    ensures a.Native? ==> r == a.tensor
    ensures a.Foreign? ==> r == convert(a.item)
  {
    match a
    case Native(t) => t
    case Foreign(x) => convert(x)
  }

  /** A keyword argument reaching the raw method: a bound default from the
      options or a converted call-time argument. */
  datatype Keyword<N> = Bound(value: Value) | Passed(tensor: N)

  /** The call the raw method receives. */
  datatype Invocation<H, N> = Invocation(raw: H, args: seq<N>, kwargs: map<string, Keyword<N>>)

  /** `_run_method`: maps every positional and keyword argument and calls
      the raw method; a call-time keyword overrides a bound default of the
      same name, as `functools.partial` does. */
  function Invoke<H, N, F>(m: RunMethod<H>, args: seq<Arg<N, F>>, kwargs: map<string, Arg<N, F>>, convert: F -> N)
    : (r: Invocation<H, N>)
    ensures r.raw == m.raw && |r.args| == |args|
    ensures forall i :: 0 <= i < |args| ==> r.args[i] == MapArg(args[i], convert)
    ensures forall i :: 0 <= i < |args| && args[i].Native? ==> r.args[i] == args[i].tensor
    ensures r.kwargs.Keys == m.defaults.Keys + kwargs.Keys
    ensures forall k :: k in kwargs ==> r.kwargs[k] == Passed(MapArg(kwargs[k], convert))
    ensures forall k :: k in m.defaults && k !in kwargs ==> r.kwargs[k] == Bound(m.defaults[k])
  {
    var bound := map k | k in m.defaults :: Bound(m.defaults[k]);
    var passed := map k | k in kwargs :: Passed(MapArg(kwargs[k], convert));
    Invocation(m.raw, seq(|args|, i requires 0 <= i < |args| => MapArg(args[i], convert)), bound + passed)
  }

  /** `run_method`: the cached lookup followed by the call. */
  function Run<H, N, F>(inst: Instance<H>, name: string, args: seq<Arg<N, F>>, kwargs: map<string, Arg<N, F>>, convert: F -> N)
    : (r: (Instance<H>, Result<Invocation<H, N>>))
    ensures r.0 == MethodFor(inst, name).0
    ensures r.1.Ok? <==> MethodFor(inst, name).1.Ok?
    ensures Coherent(inst) && r.1.Ok? ==> name in inst.model && r.1.value.raw == inst.model[name]
    ensures r.1.Ok? ==> r.1.value == Invoke(MethodFor(inst, name).1.value, args, kwargs, convert)
  {
    var (after, handle) := MethodFor(inst, name);
    if handle.Err? then (after, Err(handle.error))
    else (after, Ok(Invoke(handle.value, args, kwargs, convert)))
  }

  /** With an empty cache, a run reaches the model's method of that name
      with the method's partial kwargs as defaults, overridden by the call's
      own keywords. */
  lemma RunUsesPartialKwargs<H, N, F>(cls: RunnableClass, gpus: nat, model: map<string, H>, name: string,
                                       kwargs: map<string, Arg<N, F>>, convert: F -> N, key: string, v: Value)
    requires name in model && cls.partialKwargs.VMap? && name in cls.partialKwargs.entries
    requires cls.partialKwargs.entries[name].VMap? && key in cls.partialKwargs.entries[name].entries
    requires cls.partialKwargs.entries[name].entries[key] == v
    ensures var r := Run(NewInstance(cls, gpus, model), name, [], kwargs, convert);
            && r.1.Ok?
            && r.1.value.kwargs[key] == (if key in kwargs then Passed(MapArg(kwargs[key], convert)) else Bound(v))
  {
  }
}
