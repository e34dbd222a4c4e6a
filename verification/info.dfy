/** `ModelContext` and `ModelInfo`, the versioned descriptor of a stored
    model, together with its dump to a document and the load that migrates
    older documents (bentoml/_internal/models/model.py, lines 337-607). */
module Infos {
  import opened Results
  import opened Tags
  import opened Values
  import opened Signatures

  /** Values the process supplies: the attrs defaults of `ModelContext`
      (`BENTOML_VERSION`, `PYTHON_VERSION`) and the clock reading that
      `datetime.now` would return. */
  datatype Env = Env(bentomlVersion: string, pythonVersion: string, now: int)

  /** Provenance of a saved model. */
  datatype Context = Context(
    frameworkName: string,
    frameworkVersions: map<string, string>,
    bentomlVersion: string,
    pythonVersion: string)

  /** The descriptor record. `name` and `version` duplicate the tag; the
      constructor derives them (see `Derived`). `creationTime` is the
      timestamp as an integer. */
  datatype Info = Info(
    tag: Tag,
    name: string,
    version: string,
    moduleName: string,
    labels: map<string, string>,
    options: map<string, Value>,
    metadata: map<string, Value>,
    context: Context,
    signatures: map<string, Signature>,
    apiVersion: string,
    creationTime: int)

  /** What `ModelInfo.__init__` establishes: the name and version fields are
      those of the tag. */
  predicate Derived(i: Info) {
    i.name == i.tag.name && i.version == i.tag.version
  }

  /** `ModelInfo.__init__`: derives name and version from the tag, converts
      the signatures, and stamps the creation time with the clock when none
      is given. */
  function MakeInfo(
    tag: Tag, moduleName: string, labels: map<string, string>, options: map<string, Value>,
    metadata: map<string, Value>, context: Context, signatures: map<string, SignatureInput>,
    apiVersion: string, creationTime: Option<int>, now: int): (r: Result<Info>)
    ensures r.Ok? <==> ConvertSignatures(signatures).Ok?
    ensures r.Ok? ==> Derived(r.value) && r.value.tag == tag
    ensures r.Ok? ==> r.value.name == tag.name && r.value.version == tag.version
    ensures r.Ok? ==> r.value.moduleName == moduleName && r.value.labels == labels && r.value.options == options
    ensures r.Ok? ==> r.value.metadata == metadata && r.value.context == context && r.value.apiVersion == apiVersion
    ensures r.Ok? ==> r.value.signatures == ConvertSignatures(signatures).value
    ensures r.Ok? ==> r.value.creationTime == (if creationTime.Some? then creationTime.value else now)
  {
    var sigs :- ConvertSignatures(signatures);
    Ok(Info(tag, tag.name, tag.version, moduleName, labels, options, metadata, context, sigs, apiVersion,
            if creationTime.Some? then creationTime.value else now))
  }

  /** `ModelInfo.__eq__`: compares every field except the derived name and
      version (the source compares `signatures` twice). */
  predicate SameInfo(a: Info, b: Info)
    ensures SameInfo(a, b) <==> a.(name := b.name, version := b.version) == b
  {
    && a.tag == b.tag
    && a.moduleName == b.moduleName
    && a.signatures == b.signatures
    && a.labels == b.labels
    && a.options == b.options
    && a.metadata == b.metadata
    && a.context == b.context
    && a.signatures == b.signatures
    && a.apiVersion == b.apiVersion
    && a.creationTime == b.creationTime
  }

  /** Descriptor equality is structural equality for every descriptor the
      constructor can produce. */
  lemma SameInfoIsStructural(a: Info, b: Info)
    requires Derived(a) && Derived(b)
    ensures SameInfo(a, b) <==> a == b
  {
  }

  function AsBuilt(sigs: map<string, Signature>): map<string, SignatureInput> {
    map k | k in sigs :: Built(sigs[k])
  }

  /** `ModelInfo.with_options`: a new descriptor whose options are exactly
      `kw` (`ModelOptions.with_options` builds fresh options, it does not
      merge); every other field is carried over. */
  function WithOptions(i: Info, kw: map<string, Value>): (r: Info)
    ensures r.options == kw
    ensures Derived(r)
    ensures r.tag == i.tag && r.moduleName == i.moduleName && r.signatures == i.signatures
    ensures r.labels == i.labels && r.metadata == i.metadata && r.context == i.context
    ensures r.apiVersion == i.apiVersion && r.creationTime == i.creationTime
  {
    ConvertBuiltIsIdentity(i.signatures);
    MakeInfo(i.tag, i.moduleName, i.labels, kw, i.metadata, i.context, AsBuilt(i.signatures),
             i.apiVersion, Some(i.creationTime), i.creationTime).value
  }

  /** Replacing options twice keeps only the second replacement; replacing
      them with the current options gives an equal descriptor. */
  lemma WithOptionsReplaces(i: Info, a: map<string, Value>, b: map<string, Value>)
    ensures WithOptions(WithOptions(i, a), b) == WithOptions(i, b)
    ensures SameInfo(WithOptions(i, i.options), i)
    ensures Derived(i) ==> WithOptions(i, i.options) == i
  {
  }

  // ---------------------------------------------------------------------
  // Dump: the unstructured form written to model.yaml

  function ContextDoc(c: Context): map<string, Value> {
    map[
      "framework_name" := VStr(c.frameworkName),
      "framework_versions" := StrMapValue(c.frameworkVersions),
      "bentoml_version" := VStr(c.bentomlVersion),
      "python_version" := VStr(c.pythonVersion)]
  }

  function SignaturesDoc(sigs: map<string, Signature>): map<string, Value> {
    map k | k in sigs :: VMap(Encode(sigs[k]))
  }

  /** The unstructure hook registered for `ModelInfo`: every attribute
      except `tag`, which is carried by `name` and `version`. */
  function ToDoc(i: Info): (r: map<string, Value>)
    ensures "tag" !in r
    ensures "name" in r && "version" in r && "signatures" in r && "context" in r
  {
    map[
      "name" := VStr(i.name),
      "version" := VStr(i.version),
      "module" := VStr(i.moduleName),
      "labels" := StrMapValue(i.labels),
      "options" := VMap(i.options),
      "metadata" := VMap(i.metadata),
      "context" := VMap(ContextDoc(i.context)),
      "signatures" := VMap(SignaturesDoc(i.signatures)),
      "api_version" := VStr(i.apiVersion),
      "creation_time" := VInt(i.creationTime)]
  }

  // ---------------------------------------------------------------------
  // Load: migration of the loaded document, then structuring

  /** Python's `needle in hay` on strings. */
  function IsSubstring(needle: string, hay: string): bool
    decreases |hay|
  {
    if |hay| < |needle| then false
    else hay[..|needle|] == needle || (|hay| > 0 && IsSubstring(needle, hay[1..]))
  }

  /** The legacy-context rewrite of `from_yaml_file`, on the value under
      `context`: a map holding `pip_dependencies` loses that key and gets
      empty `framework_versions`; the membership test on a string is a
      substring test and on a list a member test, and deleting from either
      raises; the test itself raises on any other scalar. */
  function MigrateContext(c: Value): (r: Result<Value>)
    ensures c.VMap? && "pip_dependencies" !in c.entries ==> r == Ok(c)
    ensures c.VMap? && "pip_dependencies" in c.entries ==>
              r == Ok(VMap((c.entries - {"pip_dependencies"})["framework_versions" := VMap(map[])]))
    ensures c.VStr? ==> (r.Ok? <==> !IsSubstring("pip_dependencies", c.s)) && (r.Ok? ==> r == Ok(c))
    ensures c.VList? ==> (r.Ok? <==> VStr("pip_dependencies") !in c.items) && (r.Ok? ==> r == Ok(c))
    ensures r.Ok? ==> c.VMap? || c.VStr? || c.VList?
  {
    match c
    case VMap(m) =>
      if "pip_dependencies" in m then
        Ok(VMap((m - {"pip_dependencies"})["framework_versions" := VMap(map[])]))
      else Ok(c)
    case VStr(s) =>
      if IsSubstring("pip_dependencies", s) then Err(WrongType("'str' object does not support item deletion"))
      else Ok(c)
    case VList(items) =>
      if VStr("pip_dependencies") in items then Err(WrongType("list indices must be integers"))
      else Ok(c)
    case _ => Err(WrongType("argument of type is not iterable"))
  }

  /** The map-level part of `ModelInfo.from_yaml_file`: the document must be
      a map; the tag is rebuilt from `name` and `version`, which are then
      deleted; a legacy `bentoml_version` key is dropped; missing
      `signatures` become the empty map; a legacy `context` is rewritten. */
  function Migrate(doc: Value): (r: Result<map<string, Value>>)
    ensures !doc.VMap? ==> r == Err(Invalid("malformed model.yaml"))
    ensures doc.VMap? && ("name" !in doc.entries || "version" !in doc.entries) ==> r.Err?
    ensures r.Ok? ==> doc.VMap? && "name" in doc.entries && "version" in doc.entries
    ensures r.Ok? ==> doc.entries["name"].VStr? && doc.entries["version"].VStr?
    ensures r.Ok? ==> "name" !in r.value && "version" !in r.value && "bentoml_version" !in r.value
    ensures r.Ok? ==>
              && "tag" in r.value
              && r.value["tag"] == VTag(Tag(doc.entries["name"].s, doc.entries["version"].s))
    ensures r.Ok? ==>
              && "signatures" in r.value
              && r.value["signatures"] == (if "signatures" in doc.entries then doc.entries["signatures"] else VMap(map[]))
    ensures r.Ok? ==> ("context" in r.value <==> "context" in doc.entries)
    ensures r.Ok? && "context" in doc.entries ==> MigrateContext(doc.entries["context"]) == Ok(r.value["context"])
    ensures r.Ok? ==> forall k :: k in doc.entries && k !in {"name", "version", "tag", "bentoml_version", "signatures", "context"}
                                  ==> k in r.value && r.value[k] == doc.entries[k]
    ensures r.Ok? ==> forall k :: k in r.value ==> k in doc.entries || k in {"tag", "signatures"}
    ensures r.Err? ==> !r.error.NotFound?
  {
    if !doc.VMap? then Err(Invalid("malformed model.yaml"))
    else
      var m := doc.entries;
      if "name" !in m then Err(MissingKey("name"))
      else if "version" !in m then Err(MissingKey("version"))
      else
        var name :- AsStr(m["name"]);
        var version :- AsStr(m["version"]);
        var withTag := m["tag" := VTag(Tag(name, version))] - {"name", "version"};
        var current := withTag - {"bentoml_version"};
        var withSigs := if "signatures" !in current then current["signatures" := VMap(map[])] else current;
        if "context" in withSigs then
          var ctx :- MigrateContext(withSigs["context"]);
          Ok(withSigs["context" := ctx])
        else
          Ok(withSigs)
  }

  /** A missing required constructor argument raises TypeError, which
      `from_yaml_file` turns into a BentoMLException. */
  function Required(m: map<string, Value>, key: string): Result<Value> {
    if key in m then Ok(m[key]) else Err(Invalid("unexpected field in model.yaml: missing " + key))
  }

  function AsMap(v: Value): Result<map<string, Value>> {
    if v.VMap? then Ok(v.entries) else Err(WrongType("expected a map"))
  }

  /** Structures `ModelContext` from a document map; the two version fields
      default to the running process's. */
  function StructureContext(v: Value, env: Env): (r: Result<Context>)
    ensures r.Ok? ==> v.VMap? && "framework_name" in v.entries && "framework_versions" in v.entries
    ensures r.Ok? && "bentoml_version" !in v.entries ==> r.value.bentomlVersion == env.bentomlVersion
    ensures r.Ok? && "python_version" !in v.entries ==> r.value.pythonVersion == env.pythonVersion
  {
    var m :- AsMap(v);
    var nameV :- Required(m, "framework_name");
    var name :- AsStr(nameV);
    var versionsV :- Required(m, "framework_versions");
    var versions :- AsStrMap(versionsV);
    var bentoml :- if "bentoml_version" in m then AsStr(m["bentoml_version"]) else Ok(env.bentomlVersion);
    var python :- if "python_version" in m then AsStr(m["python_version"]) else Ok(env.pythonVersion);
    Ok(Context(name, versions, bentoml, python))
  }

  /** A dumped context structures back to itself. */
  lemma ContextRoundTrip(c: Context, env: Env)
    ensures StructureContext(VMap(ContextDoc(c)), env) == Ok(c)
  {
    StrMapRoundTrip(c.frameworkVersions);
  }

  function StructureSignature(v: Value): Result<Signature> {
    if v.VMap? then Structure(v.entries) else Err(WrongType("expected a signature map"))
  }

  /** Structures the `signatures` attribute: each value is structured by the
      attrs hook (not by `from_dict`, so an integer `batch_dim` is refused
      here), and the constructor's conversion then keeps the built values. */
  function StructureSignatures(v: Value): (r: Result<map<string, Signature>>)
    ensures r.Ok? ==> v.VMap? && r.value.Keys == v.entries.Keys
    ensures r.Ok? ==> forall k :: k in v.entries ==> v.entries[k].VMap? && Structure(v.entries[k].entries) == Ok(r.value[k])
  {
    var m :- AsMap(v);
    MapAll(m, StructureSignature, "invalid model signature")
  }

  /** Structures a migrated map into a descriptor: keys for the constructor's
      required arguments must be present, `creation_time` is optional and
      other keys are ignored. */
  function StructureInfo(m: map<string, Value>, env: Env): (r: Result<Info>)
    ensures r.Ok? ==> Derived(r.value)
    ensures r.Err? ==> !r.error.NotFound?
    ensures r.Ok? ==> "tag" in m && m["tag"] == VTag(r.value.tag)
    ensures r.Ok? ==> "signatures" in m && StructureSignatures(m["signatures"]) == Ok(r.value.signatures)
    ensures r.Ok? && "creation_time" !in m ==> r.value.creationTime == env.now
    ensures r.Ok? && "creation_time" in m ==> m["creation_time"] == VInt(r.value.creationTime)
  {
    var tagV :- Required(m, "tag");
    var tag :- if tagV.VTag? then Ok(tagV.tag) else Err(WrongType("tag"));
    var moduleV :- Required(m, "module");
    var moduleName :- AsStr(moduleV);
    var labelsV :- Required(m, "labels");
    var labels :- AsStrMap(labelsV);
    var optionsV :- Required(m, "options");
    var options :- AsMap(optionsV);
    var metadataV :- Required(m, "metadata");
    var metadata :- AsMap(metadataV);
    var contextV :- Required(m, "context");
    var context :- StructureContext(contextV, env);
    var signaturesV :- Required(m, "signatures");
    var signatures :- StructureSignatures(signaturesV);
    var apiV :- Required(m, "api_version");
    var api :- AsStr(apiV);
    var created :-
      if "creation_time" !in m then Ok(None)
      else if m["creation_time"].VInt? then Ok(Some(m["creation_time"].i))
      else Err(WrongType("creation_time"));
    ConvertBuiltIsIdentity(signatures);
    MakeInfo(tag, moduleName, labels, options, metadata, context, AsBuilt(signatures), api, created, env.now)
  }

  /** `ModelInfo.from_yaml_file` on an already parsed document. */
  function Load(doc: Value, env: Env): (r: Result<Info>)
    ensures !doc.VMap? ==> r == Err(Invalid("malformed model.yaml"))
    ensures r.Err? ==> !r.error.NotFound?
    ensures r.Ok? ==> Derived(r.value)
    ensures r.Ok? ==>
              && doc.VMap? && "name" in doc.entries && "version" in doc.entries
              && doc.entries["name"].VStr? && doc.entries["version"].VStr?
              && r.value.tag == Tag(doc.entries["name"].s, doc.entries["version"].s)
    ensures r.Ok? && "signatures" !in doc.entries ==> r.value.signatures == map[]
  {
    var m :- Migrate(doc);
    StructureInfo(m, env)
  }

  /** A migrated map that holds, under each key the constructor reads, the
      value a dump of `i` writes there. */
  predicate Describes(m: map<string, Value>, i: Info) {
    && "tag" in m && m["tag"] == VTag(i.tag)
    && "module" in m && m["module"] == VStr(i.moduleName)
    && "labels" in m && m["labels"] == StrMapValue(i.labels)
    && "options" in m && m["options"] == VMap(i.options)
    && "metadata" in m && m["metadata"] == VMap(i.metadata)
    && "context" in m && m["context"] == VMap(ContextDoc(i.context))
    && "signatures" in m && m["signatures"] == VMap(SignaturesDoc(i.signatures))
    && "api_version" in m && m["api_version"] == VStr(i.apiVersion)
    && "creation_time" in m && m["creation_time"] == VInt(i.creationTime)
  }

  /** A document holding, under each key a dump writes, the value it
      writes for `i`. */
  predicate DumpedShape(doc: map<string, Value>, i: Info) {
    && "name" in doc && doc["name"] == VStr(i.tag.name)
    && "version" in doc && doc["version"] == VStr(i.tag.version)
    && "module" in doc && doc["module"] == VStr(i.moduleName)
    && "labels" in doc && doc["labels"] == StrMapValue(i.labels)
    && "options" in doc && doc["options"] == VMap(i.options)
    && "metadata" in doc && doc["metadata"] == VMap(i.metadata)
    && "context" in doc && doc["context"] == VMap(ContextDoc(i.context))
    && "signatures" in doc && doc["signatures"] == VMap(SignaturesDoc(i.signatures))
    && "api_version" in doc && doc["api_version"] == VStr(i.apiVersion)
    && "creation_time" in doc && doc["creation_time"] == VInt(i.creationTime)
  }

  lemma ToDocShape(i: Info)
    requires Derived(i)
    ensures DumpedShape(ToDoc(i), i)
  {
  }

  /** Migration of a document shaped like a dump only swaps `name` and
      `version` for the tag. */
  lemma MigrateShaped(doc: map<string, Value>, i: Info)
    requires DumpedShape(doc, i)
    ensures Migrate(VMap(doc)).Ok?
    ensures Describes(Migrate(VMap(doc)).value, i)
  {
    assert "pip_dependencies" !in ContextDoc(i.context);
    assert MigrateContext(doc["context"]) == Ok(doc["context"]);
    var r := Migrate(VMap(doc));
    assert r.Ok?;
    MigrateKeeps(VMap(doc), "module");
    MigrateKeeps(VMap(doc), "labels");
    MigrateKeeps(VMap(doc), "options");
    MigrateKeeps(VMap(doc), "metadata");
    MigrateKeeps(VMap(doc), "api_version");
    MigrateKeeps(VMap(doc), "creation_time");
  }

  /** A freshly dumped descriptor has nothing to migrate besides the tag. */
  lemma MigrateDumped(i: Info)
    requires Derived(i)
    ensures Migrate(VMap(ToDoc(i))).Ok?
    ensures Describes(Migrate(VMap(ToDoc(i))).value, i)
  {
    ToDocShape(i);
    MigrateShaped(ToDoc(i), i);
  }

  lemma MigrateKeeps(doc: Value, k: string)
    requires Migrate(doc).Ok? && doc.VMap? && k in doc.entries
    requires k in {"module", "labels", "options", "metadata", "api_version", "creation_time"}
    ensures k in Migrate(doc).value && Migrate(doc).value[k] == doc.entries[k]
  {
  }

  lemma StructureSignaturesDumped(sigs: map<string, Signature>)
    requires forall k :: k in sigs ==> SurvivesEncoding(sigs[k])
    ensures StructureSignatures(VMap(SignaturesDoc(sigs))) == Ok(sigs)
  {
    var sv := VMap(SignaturesDoc(sigs));
    var sr := StructureSignatures(sv);
    forall k | k in sv.entries ensures StructureSignature(sv.entries[k]) == Ok(sigs[k]) {
      EncodeRoundTrip(sigs[k]);
    }
    assert sr.Ok?;
    assert sr.value == sigs;
  }

  /** A map describing a descriptor structures back to that descriptor. */
  lemma StructureDescribed(m: map<string, Value>, i: Info, env: Env)
    requires Describes(m, i) && Derived(i)
    requires forall k :: k in i.signatures ==> SurvivesEncoding(i.signatures[k])
    ensures StructureInfo(m, env) == Ok(i)
  {
    StrMapRoundTrip(i.labels);
    StructureSignaturesDumped(i.signatures);
    ContextRoundTrip(i.context, env);
    ConvertBuiltIsIdentity(i.signatures);
    var made := MakeInfo(i.tag, i.moduleName, i.labels, i.options, i.metadata, i.context,
                         AsBuilt(i.signatures), i.apiVersion, Some(i.creationTime), env.now);
    assert made == Ok(i);
  }

  /** The descriptor survives a dump and load: the tag is rebuilt from
      `name` and `version`, and every field comes back exactly as long as
      every signature survives encoding. */
  lemma DumpLoadRoundTrip(i: Info, env: Env)
    requires Derived(i)
    requires forall k :: k in i.signatures ==> SurvivesEncoding(i.signatures[k])
    ensures Load(VMap(ToDoc(i)), env) == Ok(i)
  {
    MigrateDumped(i);
    StructureDescribed(Migrate(VMap(ToDoc(i))).value, i, env);
  }

  /** Conversely, a descriptor holding a non-batchable signature with a
      non-default batch dimension does not survive: that dimension is not
      written. */
  lemma DumpLoadLosesHiddenBatchDim(i: Info, env: Env, k: string)
    requires Derived(i)
    requires k in i.signatures && !SurvivesEncoding(i.signatures[k])
    ensures Load(VMap(ToDoc(i)), env) != Ok(i)
  {
    MigrateDumped(i);
    var m := Migrate(VMap(ToDoc(i))).value;
    var r := StructureInfo(m, env);
    if r.Ok? {
      assert m["signatures"] == VMap(SignaturesDoc(i.signatures));
      SignaturesDumpedLoseHiddenBatchDim(i.signatures, r.value.signatures, k);
    }
  }

  /** The signature-level half of the above: structuring the dumped
      signatures never gives back one whose hidden batch dimension was set. */
  lemma SignaturesDumpedLoseHiddenBatchDim(sigs: map<string, Signature>, out: map<string, Signature>, k: string)
    requires k in sigs && !SurvivesEncoding(sigs[k])
    requires StructureSignatures(VMap(SignaturesDoc(sigs))) == Ok(out)
    ensures out != sigs
  {
    EncodeRoundTrip(sigs[k]);
    assert Structure(Encode(sigs[k])) == Ok(out[k]);
    assert out[k].batchDim == (0, 0);
  }
}
