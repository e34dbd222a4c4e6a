/** Failure values shared by the whole model, and a helper that maps a
    fallible function over every value of a map. */
module Results {

  /** The exception kinds the registry and the container raise, named by
      what went wrong rather than by the Python class. */
  datatype Error =
    | NotFound(what: string)            // bentoml.exceptions.NotFound
    | Invalid(what: string)             // BentoMLException raised by the registry
    | MissingKey(key: string)           // KeyError on a descriptor lookup
    | WrongType(what: string)           // TypeError / ValueError on a value of the wrong kind
    | MissingAttribute(name: string)    // AttributeError from getattr on the loaded model
    | MissingModule(name: string)       // import of a module that does not exist
    | BadShape(what: string)            // TensorFlow InvalidArgumentError / ValueError

  /** Either a value or the error that replaced it; usable with `:-`. */
  datatype Result<+T> = Ok(value: T) | Err(error: Error) {
    predicate IsFailure() {
      Err?
    }

    function PropagateFailure<U>(): Result<U>
      requires Err?
    {
      Err(error)
    }

    function Extract(): T
      requires Ok?
    {
      value
    }
  }

  /** Python's `x | None`. */
  datatype Option<+T> = None | Some(value: T)

  /** Applies `f` to every value of `m`; succeeds iff every application does,
      and then keeps the keys and holds each value's image. Dictionary order
      is not modelled, so a failure is reported as `WrongType(what)` rather
      than as the first failing entry's own error. */
  function MapAll<V, W>(m: map<string, V>, f: V -> Result<W>, what: string): (r: Result<map<string, W>>)
    ensures r.Ok? <==> forall k :: k in m ==> f(m[k]).Ok?
    ensures r.Ok? ==> r.value.Keys == m.Keys
    ensures r.Ok? ==> forall k :: k in m ==> r.value[k] == f(m[k]).value
    ensures r.Err? ==> r.error == WrongType(what)
  {
    if forall k :: k in m ==> f(m[k]).Ok? then
      Ok(map k | k in m :: f(m[k]).value)
    else
      Err(WrongType(what))
  }
}

/** Versioned identity of a stored model. Parsing, validation and version
    generation live in bentoml/_internal/tag.py, which is not part of this
    model; here a tag is the pair it denotes. */
module Tags {
  datatype Tag = Tag(name: string, version: string)
}
