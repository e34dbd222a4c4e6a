/** `ModelSignature`: one callable method of a model and its batching
    configuration (bentoml/_internal/models/model.py, lines 358-463). */
module Signatures {
  import opened Results
  import opened Values

  /** `input_spec` and `output_spec` hold arbitrary values; `VNull` stands
      for Python's `None`. */
  datatype Signature = Signature(batchable: bool, batchDim: (int, int), inputSpec: Value, outputSpec: Value)

  /** The attrs defaults: not batchable, batch dimension (0, 0), no specs. */
  const Default: Signature := Signature(false, (0, 0), VNull, VNull)

  /** A `(input_dim, output_dim)` pair as a document value. */
  function DimValue(d: (int, int)): Value {
    VList([VInt(d.0), VInt(d.1)])
  }

  /** Structures a `tuple[int, int]`: a sequence of exactly two integers. */
  function StructureDim(v: Value): (r: Result<(int, int)>)
    ensures r.Ok? <==> v.VList? && |v.items| == 2 && AsInt(v.items[0]).Some? && AsInt(v.items[1]).Some?
    ensures forall a, b :: v == DimValue((a, b)) ==> r == Ok((a, b))
  {
    if v.VList? && |v.items| == 2 && AsInt(v.items[0]).Some? && AsInt(v.items[1]).Some? then
      Ok((AsInt(v.items[0]).value, AsInt(v.items[1]).value))
    else
      Err(WrongType("batch_dim must be a pair of integers"))
  }

  /** Structures a signature from a dictionary the way the attrs structuring
      hook does: each absent key takes its attrs default, unknown keys are
      ignored. */
  function Structure(d: map<string, Value>): (r: Result<Signature>)
    ensures r.Ok? <==>
              ("batchable" in d ==> d["batchable"].VBool?) &&
              ("batch_dim" in d ==> StructureDim(d["batch_dim"]).Ok?)
    ensures r.Ok? && "batch_dim" !in d ==> r.value.batchDim == (0, 0)
    ensures r.Ok? && "batch_dim" in d ==> r.value.batchDim == StructureDim(d["batch_dim"]).value
    ensures r.Ok? ==> r.value.inputSpec == (if "input_spec" in d then d["input_spec"] else VNull)
    ensures r.Ok? ==> r.value.outputSpec == (if "output_spec" in d then d["output_spec"] else VNull)
  {
    var batchable :-
      if "batchable" !in d then Ok(Default.batchable)
      else if d["batchable"].VBool? then Ok(d["batchable"].b)
      else Err(WrongType("batchable must be a bool"));
    var batchDim :- if "batch_dim" in d then StructureDim(d["batch_dim"]) else Ok(Default.batchDim);
    var inputSpec := if "input_spec" in d then d["input_spec"] else Default.inputSpec;
    var outputSpec := if "output_spec" in d then d["output_spec"] else Default.outputSpec;
    Ok(Signature(batchable, batchDim, inputSpec, outputSpec))
  }

  /** `ModelSignature.from_dict`: an integer `batch_dim` b is first widened
      to the pair (b, b); a pair is structured as given. */
  function FromDict(d: map<string, Value>): (r: Result<Signature>)
    ensures "batch_dim" in d && AsInt(d["batch_dim"]).Some? && r.Ok? ==>
              var b := AsInt(d["batch_dim"]).value; r.value.batchDim == (b, b)
    ensures "batch_dim" in d && d["batch_dim"].VList? && r.Ok? ==>
              StructureDim(d["batch_dim"]).Ok? && r.value.batchDim == StructureDim(d["batch_dim"]).value
    ensures "batch_dim" !in d && r.Ok? ==> r.value.batchDim == (0, 0)
    ensures "batchable" !in d && r.Ok? ==> !r.value.batchable
    ensures r.Ok? ==> r.value.inputSpec == (if "input_spec" in d then d["input_spec"] else VNull)
    ensures r.Ok? ==> r.value.outputSpec == (if "output_spec" in d then d["output_spec"] else VNull)
    ensures r.Ok? <==>
              ("batchable" in d ==> d["batchable"].VBool?) &&
              ("batch_dim" in d ==> AsInt(d["batch_dim"]).Some? || StructureDim(d["batch_dim"]).Ok?)
    ensures r.Ok? ==> r.value.batchable == ("batchable" in d && d["batchable"].b)
  {
    if "batch_dim" in d && AsInt(d["batch_dim"]).Some? then
      var b := AsInt(d["batch_dim"]).value;
      Structure(d["batch_dim" := DimValue((b, b))])
    else
      Structure(d)
  }

  /** A signature built from the empty dictionary is the default one. */
  lemma EmptyDictIsDefault()
    ensures FromDict(map[]) == Ok(Default)
  {
  }

  /** `model_signature_encoder`: `batchable` always, `batch_dim` only for a
      batchable signature, each spec only when it is not `None`. */
  function Encode(s: Signature): (r: map<string, Value>)
    ensures "batchable" in r && r["batchable"] == VBool(s.batchable)
    ensures "batch_dim" in r <==> s.batchable
    ensures "batch_dim" in r ==> r["batch_dim"] == DimValue(s.batchDim)
    ensures "input_spec" in r <==> s.inputSpec != VNull
    ensures "output_spec" in r <==> s.outputSpec != VNull
    ensures forall k :: k in r ==> k in {"batchable", "batch_dim", "input_spec", "output_spec"}
  {
    var encoded := map["batchable" := VBool(s.batchable)];
    var withDim := if s.batchable then encoded["batch_dim" := DimValue(s.batchDim)] else encoded;
    var withInput := if s.inputSpec != VNull then withDim["input_spec" := s.inputSpec] else withDim;
    if s.outputSpec != VNull then withInput["output_spec" := s.outputSpec] else withInput
  }

  /** The signatures that survive encoding: the batch dimension of a
      non-batchable signature is dropped, so only (0, 0) comes back. */
  predicate SurvivesEncoding(s: Signature) {
    s.batchable || s.batchDim == (0, 0)
  }

  /** Decoding an encoded signature gives it back exactly when it is
      batchable or its batch dimension is the default; otherwise the
      batch dimension is reset to (0, 0) and everything else is kept. */
  lemma EncodeRoundTrip(s: Signature)
    ensures Structure(Encode(s)).Ok?
    ensures Structure(Encode(s)) == Ok(s) <==> SurvivesEncoding(s)
    ensures Structure(Encode(s)) == Ok(s.(batchDim := if s.batchable then s.batchDim else (0, 0)))
    ensures FromDict(Encode(s)) == Structure(Encode(s))
  {
  }

  /** What a caller may hand over as a signature: a dictionary still to be
      structured, or a `ModelSignature` already built. */
  datatype SignatureInput = Raw(fields: map<string, Value>) | Built(signature: Signature)

  function ConvertOne(v: SignatureInput): Result<Signature> {
    match v
    case Raw(d) => FromDict(d)
    case Built(s) => Ok(s)
  }

  /** `ModelSignature.convert_signatures_dict`: dictionaries go through
      `from_dict`, built signatures are kept. */
  function ConvertSignatures(data: map<string, SignatureInput>): (r: Result<map<string, Signature>>)
    ensures r.Ok? <==> forall k :: k in data && data[k].Raw? ==> FromDict(data[k].fields).Ok?
    ensures r.Ok? ==> r.value.Keys == data.Keys
    ensures r.Ok? ==> forall k :: k in data && data[k].Built? ==> r.value[k] == data[k].signature
    ensures r.Ok? ==> forall k :: k in data && data[k].Raw? ==> r.value[k] == FromDict(data[k].fields).value
  {
    MapAll(data, ConvertOne, "invalid model signature")
  }

  /** Signatures already built pass through conversion unchanged. */
  lemma ConvertBuiltIsIdentity(sigs: map<string, Signature>)
    ensures ConvertSignatures(map k | k in sigs :: Built(sigs[k])) == Ok(sigs)
  {
    var r := ConvertSignatures(map k | k in sigs :: Built(sigs[k]));
    assert r.Ok?;
    assert r.value == sigs;
  }
}
