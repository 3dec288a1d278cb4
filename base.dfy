/** Shared vocabulary: optional values, results with the `:-` protocol, bytes and the
    error values the crate returns. */
module Base {

  newtype byte = x: int | 0 <= x < 256

  type Bytes = seq<byte>

  datatype Unit = Unit

  datatype Option<+T> = None | Some(value: T) {
    predicate IsFailure() { None? }
    function PropagateFailure<U>(): Option<U> requires None? { None }
    function Extract(): T requires Some? { value }
  }

  datatype Result<+T, +E> = Ok(value: T) | Err(error: E) {
    predicate IsFailure() { Err? }
    function PropagateFailure<U>(): Result<U, E> requires Err? { Err(error) }
    function Extract(): T requires Ok? { value }
  }

  /** Why serde refused a JSON value.  serde's exact wording (the "expected ..." tails)
      and which of several faults it reports first are not modelled. */
  datatype DecodeFailure =
    | UnknownField
    | MissingField(field: string)
    | InvalidType(expected: string)
    | InvalidUrl(text: string)
    | InvalidLength
    | NoVariantMatched(enumName: string)

  /** The errors of the crate.  `Message` carries a text the crate writes itself; the other
      cases stand for the `to_string()` of an error raised inside a library. */
  datatype Error =
    | Message(text: string)
    | KeyRejected                      // ring: PKCS#8 document not accepted
    | SignatureRejected                // ring: `error::Unspecified` from a failed verify
    | Base64Invalid                    // base64: decode error
    | UrlInvalid(input: string)        // url: `ParseError`
    | Malformed(failure: DecodeFailure)  // serde: `from_value` error
    | SchemaInvalid                    // jsonschema / valico: schema does not compile

  type Outcome = Result<Unit, Error>

  /** `iter().map(f).collect()`. */
  function MapSeq<T, U>(xs: seq<T>, f: T -> U): (r: seq<U>)
    ensures |r| == |xs|
    ensures forall i :: 0 <= i < |xs| ==> r[i] == f(xs[i])
  {
    if xs == [] then [] else [f(xs[0])] + MapSeq(xs[1..], f)
  }

  function MapError<T, E, F>(r: Result<T, E>, f: E -> F): (s: Result<T, F>)
    ensures s.Ok? <==> r.Ok?
    ensures s.Ok? ==> s.value == r.value
    ensures s.Err? ==> s.error == f(r.error)
  {
    match r
    case Ok(v) => Ok(v)
    case Err(e) => Err(f(e))
  }

  function OkOr<T, E>(o: Option<T>, e: E): (r: Result<T, E>)
    ensures r.Ok? <==> o.Some?
    ensures o.Some? ==> r.value == o.value
    ensures o.None? ==> r.error == e
  {
    match o
    case Some(v) => Ok(v)
    case None => Err(e)
  }
}
