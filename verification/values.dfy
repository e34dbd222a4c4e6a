/** The dynamic values a model descriptor is made of: what a YAML document
    loads to, what the signature encoder emits, what options and metadata
    hold. */
module Values {
  import opened Results
  import opened Tags

  /** A loaded YAML value. `VTag` is the tag value the descriptor loader
      inserts before structuring (the string form of a `Tag` and its parser
      belong to tag.py and are abstracted to the tag itself). */
  datatype Value =
    | VNull
    | VBool(b: bool)
    | VInt(i: int)
    | VStr(s: string)
    | VList(items: seq<Value>)
    | VMap(entries: map<string, Value>)
    | VTag(tag: Tag)

  /** Python truthiness (`bool(v)`). */
  predicate Truthy(v: Value) {
    match v
    case VNull => false
    case VBool(b) => b
    case VInt(i) => i != 0
    case VStr(s) => |s| > 0
    case VList(items) => |items| > 0
    case VMap(entries) => |entries| > 0
    case VTag(_) => true
  }

  /** `isinstance(v, int)` followed by the value: `bool` is a subclass of
      `int` in Python, so `True` reads as 1. */
  function AsInt(v: Value): (r: Option<int>)
    ensures r.Some? <==> v.VInt? || v.VBool?
    ensures v.VInt? ==> r == Some(v.i)
  {
    match v
    case VInt(i) => Some(i)
    case VBool(b) => Some(if b then 1 else 0)
    case _ => None
  }

  /** A `dict[str, str]` as a value. */
  function StrMapValue(m: map<string, string>): Value {
    VMap(map k | k in m :: VStr(m[k]))
  }

  function AsStr(v: Value): Result<string> {
    if v.VStr? then Ok(v.s) else Err(WrongType("expected a string"))
  }

  /** Structures a value as a `dict[str, str]`: it must be a map whose
      values are all strings. */
  function AsStrMap(v: Value): (r: Result<map<string, string>>)
    ensures r.Ok? <==> v.VMap? && forall k :: k in v.entries ==> v.entries[k].VStr?
    ensures r.Ok? ==> r.value.Keys == v.entries.Keys
    ensures r.Ok? ==> forall k :: k in r.value ==> v.entries[k] == VStr(r.value[k])
  {
    if v.VMap? then MapAll(v.entries, AsStr, "expected a map of strings")
    else Err(WrongType("expected a map of strings"))
  }

  /** Reading a `dict[str, str]` back from its value gives the same dict. */
  lemma StrMapRoundTrip(m: map<string, string>)
    ensures AsStrMap(StrMapValue(m)) == Ok(m)
  {
    var r := AsStrMap(StrMapValue(m));
    assert r.Ok?;
    assert r.value.Keys == m.Keys;
    assert forall k :: k in m ==> r.value[k] == m[k] by {
      forall k | k in m ensures r.value[k] == m[k] {
        assert StrMapValue(m).entries[k] == VStr(m[k]);
      }
    }
    assert r.value == m;
  }
}
