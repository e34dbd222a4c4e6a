/** `Model`, the runtime entity binding a tag, a descriptor and a model
    directory, with its lazily computed fields, and the model store it is
    saved to and copied between (bentoml/_internal/models/model.py,
    lines 82-331 and 610-626). */
module Models {
  import opened Results
  import opened Tags
  import opened Values
  import opened Signatures
  import opened Infos

  /** The part of a model directory the registry reads: the loaded
      `model.yaml` document, the unpickled `custom_objects.pkl` object, and
      the names of the artifact files a framework adapter wrote there. */
  datatype ModelFs = ModelFs(modelYaml: Option<Value>, customObjectsPkl: Option<Value>, artifacts: set<string>)

  /** A fresh temporary directory. */
  const EmptyFs: ModelFs := ModelFs(None, None, {})

  /** A model. `customObjects` is the `_custom_objects` cell (`None` until
      first read); `runnable` is the `_runnable` cell holding the runnable
      class, of type `R`, once resolved. */
  datatype Model<R> = Model(tag: Tag, fs: ModelFs, info: Info, customObjects: Option<Value>, runnable: Option<R>)

  /** The store: one committed directory per tag. */
  type Store = map<Tag, ModelFs>

  /** `Model.__eq__`: models are equal iff their tags are. */
  predicate SameModel<R>(a: Model<R>, b: Model<R>)
    ensures SameModel(a, b) <==> a.tag.name == b.tag.name && a.tag.version == b.tag.version
  {
    a.tag == b.tag
  }

  /** `Model.__hash__`: the tag's hash, for any hash function on tags. */
  function ModelHash<R>(m: Model<R>, hash: Tag -> int): (r: int)
    ensures r == hash(Tag(m.tag.name, m.tag.version))
  {
    hash(m.tag)
  }

  /** Equal models hash equally, and models with different tags are never
      equal whatever else they share. */
  lemma EqualityFollowsTags<R>(a: Model<R>, b: Model<R>, hash: Tag -> int)
    ensures SameModel(a, b) ==> ModelHash(a, hash) == ModelHash(b, hash)
    ensures SameModel(a, b) <==> a.tag == b.tag
    ensures a.info == b.info && a.fs == b.fs && a.tag != b.tag ==> !SameModel(a, b)
  {
  }

  /** `Model.validate`: the directory holds `model.yaml`. */
  predicate Validate<R>(m: Model<R>)
    ensures Validate(m) <==> m.fs.modelYaml != None
  {
    m.fs.modelYaml.Some?
  }

  /** `Model.create`: a new version of `name` (the generated version is a
      parameter), absent labels, options and metadata as empty maps, a fresh
      empty temporary directory, and no creation time so the clock is used. */
  function Create<R>(
    name: string, version: string, moduleName: string, apiVersion: string,
    signatures: map<string, SignatureInput>, labels: Option<map<string, string>>,
    options: Option<map<string, Value>>, customObjects: Option<map<string, Value>>,
    metadata: Option<map<string, Value>>, context: Context, now: int): (r: Result<Model<R>>)
    ensures r.Ok? <==> ConvertSignatures(signatures).Ok?
    ensures r.Ok? ==> r.value.tag == Tag(name, version) && r.value.info.tag == r.value.tag
    ensures r.Ok? ==> Derived(r.value.info) && r.value.info.moduleName == moduleName
    ensures r.Ok? ==> r.value.info.labels == (if labels.Some? then labels.value else map[])
    ensures r.Ok? ==> r.value.info.options == (if options.Some? then options.value else map[])
    ensures r.Ok? ==> r.value.info.metadata == (if metadata.Some? then metadata.value else map[])
    ensures r.Ok? ==> r.value.info.creationTime == now
    ensures r.Ok? ==> !Validate(r.value) && r.value.runnable.None?
    ensures r.Ok? ==> r.value.customObjects == (if customObjects.Some? then Some(VMap(customObjects.value)) else None)
    ensures r.Ok? ==> r.value.fs == EmptyFs
    ensures r.Ok? ==> r.value.info.signatures == ConvertSignatures(signatures).value
    ensures r.Ok? ==> r.value.info.context == context && r.value.info.apiVersion == apiVersion
  {
    var tag := Tag(name, version);
    var info :- MakeInfo(tag, moduleName,
                         if labels.Some? then labels.value else map[],
                         if options.Some? then options.value else map[],
                         if metadata.Some? then metadata.value else map[],
                         context, signatures, apiVersion, None, now);
    Ok(Model(tag, EmptyFs, info, if customObjects.Some? then Some(VMap(customObjects.value)) else None, None))
  }

  // ---------------------------------------------------------------------
  // custom_objects: a compute-once cell

  /** The `custom_objects` property as written: the unpickled object is
      stored in the cell before its type is checked, so a non-dict object is
      reported once and then served from the cell. */
  function CustomObjectsAsWritten<R>(m: Model<R>): (r: (Model<R>, Result<Value>))
    ensures m.customObjects.Some? ==> r == (m, Ok(m.customObjects.value))
    ensures m.customObjects.None? && m.fs.customObjectsPkl.None? ==> r.1 == Ok(VMap(map[]))
    ensures m.customObjects.None? && m.fs.customObjectsPkl.Some? && m.fs.customObjectsPkl.value != VNull ==>
              r.0.customObjects == m.fs.customObjectsPkl
    ensures r.1.Err? <==> m.customObjects.None? && m.fs.customObjectsPkl.Some? && !m.fs.customObjectsPkl.value.VMap?
  {
    if m.customObjects.Some? then (m, Ok(m.customObjects.value))
    else if m.fs.customObjectsPkl.None? then (m.(customObjects := Some(VMap(map[]))), Ok(VMap(map[])))
    else
      var loaded := m.fs.customObjectsPkl.value;
      var cached := m.(customObjects := if loaded == VNull then None else Some(loaded));
      if loaded.VMap? then (cached, Ok(loaded))
      else (cached, Err(WrongType("Invalid custom objects found.")))
  }

  /** A model whose `custom_objects.pkl` holds a non-dict object: the first
      read fails, the second returns the object. */
  lemma CustomObjectsAsWrittenServesInvalid()
    ensures var m: Model<bool> := Model(Tag("m", "v"), ModelFs(None, Some(VInt(1)), {}),
                                 Info(Tag("m", "v"), "m", "v", "", map[], map[], map[],
                                      Context("", map[], "", ""), map[], "", 0), None, None);
            var (m1, first) := CustomObjectsAsWritten(m);
            first.Err? && CustomObjectsAsWritten(m1).1 == Ok(VInt(1))
  {
  }

  /** The cell discipline the property is meant to keep: empty, or a dict. */
  predicate CustomObjectsCellValid<R>(m: Model<R>) {
    m.customObjects.None? || m.customObjects.value.VMap?
  }

  /** The `custom_objects` property as intended: computed once per model;
      the empty dict when no `custom_objects.pkl` exists; an error, leaving
      the cell empty, when the stored object is not a dict. */
  function CustomObjects<R>(m: Model<R>): (r: (Model<R>, Result<map<string, Value>>))
    ensures CustomObjectsCellValid(m) ==> CustomObjectsCellValid(r.0)
    ensures r.0.tag == m.tag && r.0.fs == m.fs && r.0.info == m.info && r.0.runnable == m.runnable
    ensures m.customObjects.None? && m.fs.customObjectsPkl.None? ==> r.1 == Ok(map[])
    ensures m.customObjects.None? && m.fs.customObjectsPkl.Some? && !m.fs.customObjectsPkl.value.VMap? ==>
              r.1.Err? && r.0 == m
    ensures m.customObjects.None? && m.fs.customObjectsPkl.Some? && m.fs.customObjectsPkl.value.VMap? ==>
              r.1 == Ok(m.fs.customObjectsPkl.value.entries)
    ensures r.1.Ok? ==> r.0.customObjects == Some(VMap(r.1.value))
    ensures m.customObjects.Some? && m.customObjects.value.VMap? ==> r == (m, Ok(m.customObjects.value.entries))
  {
    if m.customObjects.Some? then
      if m.customObjects.value.VMap? then (m, Ok(m.customObjects.value.entries))
      else (m, Err(WrongType("Invalid custom objects found.")))
    else if m.fs.customObjectsPkl.None? then (m.(customObjects := Some(VMap(map[]))), Ok(map[]))
    else
      var loaded := m.fs.customObjectsPkl.value;
      if loaded.VMap? then (m.(customObjects := Some(loaded)), Ok(loaded.entries))
      else (m, Err(WrongType("Invalid custom objects found.")))
  }

  /** Once read, `custom_objects` is served from the cell: a second read
      returns the same dict and changes nothing; a failed read is repeated. */
  lemma CustomObjectsComputedOnce<R>(m: Model<R>)
    ensures var (m1, first) := CustomObjects(m);
            first.Ok? ==> CustomObjects(m1) == (m1, first)
    ensures var (m1, first) := CustomObjects(m);
            first.Err? && m.customObjects.None? ==> CustomObjects(m1).1.Err?
  {
  }

  // ---------------------------------------------------------------------
  // to_runnable: a compute-once cell

  /** `Model.to_runnable`: the first call imports `info.module` and asks it
      for a runnable class (`resolve` stands for both steps, and sees the
      descriptor, which is all the adapters read); later calls return the
      cached class without resolving again. */
  function ToRunnable<R>(m: Model<R>, resolve: (string, Info) -> Result<R>): (r: (Model<R>, Result<R>))
    ensures m.runnable.Some? ==> r == (m, Ok(m.runnable.value))
    ensures m.runnable.None? ==> r.1 == resolve(m.info.moduleName, m.info)
    ensures r.1.Ok? ==> r.0 == m.(runnable := Some(r.1.value))
    ensures r.1.Err? ==> r.0 == m
  {
    if m.runnable.Some? then (m, Ok(m.runnable.value))
    else
      var resolved := resolve(m.info.moduleName, m.info);
      if resolved.Ok? then (m.(runnable := Some(resolved.value)), resolved)
      else (m, resolved)
  }

  /** After a successful `to_runnable`, every later call returns the same
      class, leaves the model as it is, and does not consult the resolver. */
  lemma ToRunnableIsMemoised<R>(m: Model<R>, resolve: (string, Info) -> Result<R>, later: (string, Info) -> Result<R>)
    ensures var (m1, first) := ToRunnable(m, resolve);
            first.Ok? ==> ToRunnable(m1, later) == (m1, first)
  {
  }

  // ---------------------------------------------------------------------
  // with_options, save, load, copy

  /** `Model.with_options`: a new model with the same tag, directory and
      custom-objects cell, descriptor options replaced by `kw`, and an empty
      runnable cell (the receiver is a value and is not changed). */
  function ModelWithOptions<R>(m: Model<R>, kw: map<string, Value>): (r: Model<R>)
    ensures SameModel(r, m) && r.fs == m.fs && r.customObjects == m.customObjects
    ensures r.info.options == kw && r.runnable.None?
    ensures SameInfo(r.info, Infos.WithOptions(m.info, kw))
    ensures Derived(m.info) ==> SameInfo(r.info, m.info.(options := kw))
  {
    Model(m.tag, m.fs, Infos.WithOptions(m.info, kw), m.customObjects, None)
  }

  /** `Model._save`: an invalid model is refused and the store is left as it
      was; otherwise the directory is mirrored into the store under the
      model's tag and the model now points at the committed copy. */
  function Save<R>(m: Model<R>, store: Store): (r: (Store, Result<Model<R>>))
    ensures r.1.Err? <==> !Validate(m)
    ensures r.1.Err? ==> r.0 == store && r.1.error == Invalid("Failed to save Model because it was invalid")
    ensures r.1.Ok? ==> m.tag in r.0 && r.0[m.tag] == m.fs && r.1.value.fs == r.0[m.tag]
    ensures r.1.Ok? ==> SameModel(r.1.value, m) && r.1.value.info == m.info
    ensures forall t :: t != m.tag ==> (t in r.0 <==> t in store) && (t in store ==> r.0[t] == store[t])
  {
    if !Validate(m) then (store, Err(Invalid("Failed to save Model because it was invalid")))
    else
      var committed := store[m.tag := m.fs];
      (committed, Ok(m.(fs := committed[m.tag])))
  }

  /** `Model.flush`: writes the dumped descriptor to `model.yaml` and, when
      `custom_objects` (read through the property) is non-empty, pickles it
      to `custom_objects.pkl`. */
  function Flush<R>(m: Model<R>): (r: Result<Model<R>>)
    ensures r.Ok? ==> Validate(r.value) && r.value.fs.modelYaml == Some(VMap(ToDoc(m.info)))
    ensures r.Ok? ==> SameModel(r.value, m) && r.value.info == m.info
    ensures r.Ok? ==> r.value.fs.artifacts == m.fs.artifacts
    ensures r.Err? <==> CustomObjects(m).1.Err?
    ensures r.Ok? ==>
              var objs := CustomObjects(m).1.value;
              r.value.fs.customObjectsPkl == if |objs| > 0 then Some(VMap(objs)) else m.fs.customObjectsPkl
  {
    var (m1, objects) := CustomObjects(m);
    var objs :- objects;
    var pkl := if |objs| > 0 then Some(VMap(objs)) else m1.fs.customObjectsPkl;
    Ok(m1.(fs := ModelFs(Some(VMap(ToDoc(m1.info))), pkl, m1.fs.artifacts)))
  }

  /** `Model.from_fs`: reads `model.yaml` (absent: refused), loads the
      descriptor and builds a model with empty cells. */
  function FromFs<R>(fs: ModelFs, env: Env): (r: Result<Model<R>>)
    ensures fs.modelYaml.None? ==> r.Err?
    ensures r.Err? ==> !r.error.NotFound?
    ensures r.Ok? ==> fs.modelYaml.Some? && Load(fs.modelYaml.value, env) == Ok(r.value.info)
    ensures r.Ok? ==> r.value.tag == r.value.info.tag && r.value.fs == fs && Validate(r.value)
    ensures r.Ok? ==> r.value.customObjects.None? && r.value.runnable.None?
  {
    if fs.modelYaml.None? then Err(Invalid("Failed to load bento model because it does not contain a 'model.yaml'"))
    else
      var info :- Load(fs.modelYaml.value, env);
      Ok(Model(info.tag, fs, info, None, None))
  }

  /** Looks a tag up in the store (resolution of `latest` belongs to the
      store, which is not part of this model). */
  function Get<R>(store: Store, tag: Tag, env: Env): (r: Result<Model<R>>)
    ensures tag !in store ==> r == Err(NotFound(tag.name + ":" + tag.version))
    ensures tag in store ==> r == FromFs(store[tag], env)
  {
    if tag !in store then Err(NotFound(tag.name + ":" + tag.version))
    else FromFs(store[tag], env)
  }

  /** A flushed model saved to a store loads back, by its tag, with the same
      descriptor, whenever its signatures survive encoding. */
  lemma SaveThenGet<R>(m: Model<R>, store: Store, env: Env)
    requires Derived(m.info) && m.tag == m.info.tag
    requires forall k :: k in m.info.signatures ==> SurvivesEncoding(m.info.signatures[k])
    requires m.fs.modelYaml == Some(VMap(ToDoc(m.info)))
    ensures Save(m, store).1.Ok?
    ensures Get<R>(Save(m, store).0, m.tag, env) == Ok(Model(m.tag, m.fs, m.info, None, None))
  {
    DumpLoadRoundTrip(m.info, env);
  }

  /** `copy_model`: nothing happens when the target already holds the tag
      (a failure other than NotFound while looking it up propagates);
      otherwise the model is loaded from the source and saved to the target. */
  function CopyModel(tag: Tag, source: Store, target: Store, env: Env): (r: (Store, Result<()>))
    ensures Get<()>(target, tag, env).Ok? ==> r == (target, Ok(()))
    ensures tag in target ==> r.0 == target
    ensures tag !in target && Get<()>(source, tag, env).Ok? ==>
              var model := Get<()>(source, tag, env).value;
              r == (target[model.tag := source[tag]], Ok(()))
    ensures tag !in target && tag !in source ==> r == (target, Err(NotFound(tag.name + ":" + tag.version)))
  {
    var existing := Get<()>(target, tag, env);
    if existing.Ok? then (target, Ok(()))
    else if !existing.error.NotFound? then (target, Err(existing.error))
    else
      var model := Get<()>(source, tag, env);
      if model.Err? then (target, Err(model.error))
      else
        // a model loaded from a store holds model.yaml, so saving it succeeds
        (Save(model.value, target).0, Ok(()))
  }

  /** Copying twice is copying once. */
  lemma CopyModelIdempotent(tag: Tag, source: Store, target: Store, env: Env)
    requires tag !in target && Get<()>(source, tag, env).Ok?
    requires Get<()>(source, tag, env).value.tag == tag
    ensures var once := CopyModel(tag, source, target, env).0;
            CopyModel(tag, source, once, env) == (once, Ok(()))
  {
  }
}
