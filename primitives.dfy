/** The libraries the signing code calls, as values the model is parameterised by:
    chrono's UTC instant, ring's Ed25519 (section 5.1 of RFC 8032) and the standard
    base64 alphabet (section 4 of RFC 4648).  Each comes with the law the library
    guarantees, stated as a predicate for the lemmas that rely on it. */
module Primitives {
  import opened Base

  datatype Instant = Instant(seconds: int, nanos: int)

  /** `DateTime<Utc>`: seconds since the Unix epoch and the nanoseconds within that second.
      Leap-second instants and chrono's year range are not modelled. */
  type DateTime = t: Instant | 0 <= t.nanos < 1_000_000_000 witness Instant(0, 0)

  /** chrono's RFC 3339 text form of an instant (what serde writes for a `DateTime<Utc>`)
      and its parser; what it prints it parses back. */
  datatype DateText = DateText(toText: DateTime -> string, fromText: string -> Option<DateTime>)

  ghost predicate LawfulDates(d: DateText) {
    forall t :: d.fromText(d.toText(t)) == Some(t)
  }

  const U32Modulus := 0x1_0000_0000

  /** Rust's `n as u32` on an `i32`: two's-complement reinterpretation. */
  function AsU32(n: int): (r: int)
    requires -0x8000_0000 <= n < 0x8000_0000
    ensures 0 <= r < U32Modulus
    ensures n >= 0 ==> r == n
    ensures n < 0 ==> r >= 0x8000_0000
  {
    if n < 0 then n + U32Modulus else n
  }

  /** `DateTime::from_timestamp(seconds, nanos)`: refuses nanoseconds outside one second. */
  function FromTimestamp(seconds: int, nanos: int): (r: Option<DateTime>)
    ensures r.Some? <==> 0 <= nanos < 1_000_000_000
    ensures r.Some? ==> r.value.seconds == seconds && r.value.nanos == nanos
  {
    if 0 <= nanos < 1_000_000_000 then Some(Instant(seconds, nanos)) else None
  }

  /** ring's Ed25519: `from_pkcs8` yields a key pair (or rejects the document), the pair
      has a public key, signs a message, and `UnparsedPublicKey::verify` checks. */
  datatype Ed25519 = Ed25519(
    fromPkcs8: Bytes -> Option<Bytes>,
    publicKeyOf: Bytes -> Bytes,
    sign: (Bytes, Bytes) -> Bytes,
    verify: (Bytes, Bytes, Bytes) -> bool)

  /** A signature made with a key pair verifies under that pair's public key. */
  ghost predicate Correct(e: Ed25519) {
    forall pair, message :: e.verify(e.publicKeyOf(pair), message, e.sign(pair, message))
  }

  /** An honest signature over one message does not verify for a different message: the
      idealised unforgeability the signing protocol relies on. */
  ghost predicate Binding(e: Ed25519) {
    forall pair, signed, checked ::
      signed != checked ==> !e.verify(e.publicKeyOf(pair), checked, e.sign(pair, signed))
  }

  /** The public key `gen_keys` pairs with a PKCS#8 private key document. */
  function PairedPublicKey(e: Ed25519, pkcs8: Bytes): (r: Option<Bytes>)
    ensures r.Some? <==> e.fromPkcs8(pkcs8).Some?
    ensures r.Some? ==> r.value == e.publicKeyOf(e.fromPkcs8(pkcs8).value)
  {
    match e.fromPkcs8(pkcs8)
    case Some(pair) => Some(e.publicKeyOf(pair))
    case None => None
  }

  /** `BASE64_STANDARD`: encoding, and a decoding that may refuse its input. */
  datatype Base64 = Base64(encode: Bytes -> string, decode: string -> Option<Bytes>)

  ghost predicate LawfulBase64(b: Base64) {
    forall bytes :: b.decode(b.encode(bytes)) == Some(bytes)
  }
}
