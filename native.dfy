/** native.rs: the proof with raw signature bytes, the signing trait's error texts, the
    valico-checked `VerifiableCredential::new`, `VerifiablePresentation::new` and
    `gen_keys`. */
module Native {
  import opened Base
  import opened Json
  import opened Strings
  import opened Primitives
  import opened Model
  import opened Serde
  import opened SerdeLaws
  import opened SchemaEngines
  import opened Signing

  const ProofType := "DataIntegrityProof"
  const Cryptosuite := "eddsa-rdfc-2022"
  const ProofPurpose := "assertionMethod"

  /** The proof `sign` attaches (native.rs:115-121). */
  function MakeProof(now: DateTime, signature: Bytes): (r: RawProof)
    ensures r.created == now && r.proofValue == signature
  {
    RawProof(ProofType, now, Cryptosuite, ProofPurpose, signature)
  }

  /** `get_proof`'s error text: each document type names itself. */
  function Unsigned(d: Document<RawProof>): string {
    if d.Credential? then "VC is unsigned" else "VP is unsigned"
  }

  /** The trait's protocol: the signature is stored as it is, and a failed check is ring's
      `Unspecified` error. */
  function NativeProtocol(dates: DateText): (pr: Protocol<RawProof>)
    ensures Carries(pr)
  {
    Protocol(RawProofJson(dates), RawProofOf(dates), MakeProof,
             (p: RawProof) => Ok(p.proofValue), Unsigned, SignatureRejected)
  }

  /** `sign` attaches exactly the trait's proof, carrying the signature over the document
      without its proof, and changes nothing else. */
  lemma SignedProof(ed: Ed25519, w: Writer, dates: DateText, d: Document<RawProof>,
                    privateKey: Bytes, now: DateTime)
    requires ed.fromPkcs8(privateKey).Some?
    ensures var s := Signed(ed, w, dates, NativeProtocol(dates), d, privateKey, now);
            var message := MessageOf(w, dates, NativeProtocol(dates), d.WithProof(None));
            s.Ok? && s.value.Proof() == Some(RawProof("DataIntegrityProof", now, "eddsa-rdfc-2022", "assertionMethod",
                                                      ed.sign(ed.fromPkcs8(privateKey).value, message)))
            && s.value.WithProof(None) == d.WithProof(None)
  {
  }

  /** `verify` on a document without a proof names the document's type. */
  lemma VerifyUnsigned(ed: Ed25519, w: Writer, dates: DateText, d: Document<RawProof>, publicKey: Bytes)
    requires d.Proof().None?
    ensures Verified(ed, w, dates, NativeProtocol(dates), d, publicKey)
            == Err(Message(if d.Credential? then "VC is unsigned" else "VP is unsigned"))
  {
  }

  // ---------------------------------------------------------------- constructors

  /** `VerifiablePresentation::new`: decoding and nothing more. */
  function NewPresentation(dates: DateText, value: Json): (r: Result<VerifiablePresentation<RawProof>, Error>)
    ensures r.Ok? <==> DecodePresentation(value, dates, RawProofOf(dates)).Ok?
    ensures r.Ok? ==> r.value == DecodePresentation(value, dates, RawProofOf(dates)).value
  {
    MapError(DecodePresentation(value, dates, RawProofOf(dates)), (f: DecodeFailure) => Malformed(f))
  }

  /** Every presentation can be rebuilt from its JSON form. */
  lemma NewPresentationRoundTrip(dates: DateText, vp: VerifiablePresentation<RawProof>)
    requires LawfulDates(dates)
    ensures NewPresentation(dates, EncodePresentation(vp, dates, RawProofJson(dates))) == Ok(vp)
  {
    RawProofCodec(dates);
    PresentationRoundTrip(vp, dates, RawProofJson(dates), RawProofOf(dates));
  }

  /** One line of valico's error report: "path: detail", or the path alone. */
  function ValicoLine(e: ValicoError): (r: string)
    ensures e.path <= r
    ensures e.detail.None? <==> r == e.path
  {
    match e.detail
    case Some(detail) => e.path + ": " + detail
    case None => e.path
  }

  /** The `writeln!` fold over valico's errors: one newline-terminated line each. */
  function ValicoReport(errors: seq<ValicoError>): (r: string)
    ensures errors == [] <==> r == ""
    ensures errors != [] ==> ValicoLine(errors[0]) + "\n" <= r
  {
    Lines(MapSeq(errors, ValicoLine))
  }

  /** `VerifiableCredential::new` of native.rs and of wasm.rs: decodes the schema credential
      and then the candidate, compiles the schema credential's subject with valico and
      validates the candidate's subject against it. */
  function NewCredential<P>(engine: ValicoEngine, dates: DateText, proofOf: Json -> Decoded<P>,
                            value: Json, schema: Json): (r: Result<VerifiableCredential<P>, Error>)
    ensures DecodeCredential(schema, dates, proofOf).Err? ==> r == Err(Malformed(DecodeCredential(schema, dates, proofOf).error))
    ensures DecodeCredential(schema, dates, proofOf).Ok? && DecodeCredential(value, dates, proofOf).Err? ==>
              r == Err(Malformed(DecodeCredential(value, dates, proofOf).error))
    ensures DecodeCredential(schema, dates, proofOf).Ok? && DecodeCredential(value, dates, proofOf).Ok?
            && !engine.compiles(DecodeCredential(schema, dates, proofOf).value.credentialSubject) ==>
              r == Err(SchemaInvalid)
    ensures r.Ok? <==> DecodeCredential(schema, dates, proofOf).Ok? && DecodeCredential(value, dates, proofOf).Ok?
                       && engine.compiles(DecodeCredential(schema, dates, proofOf).value.credentialSubject)
                       && engine.validate(DecodeCredential(schema, dates, proofOf).value.credentialSubject,
                                          DecodeCredential(value, dates, proofOf).value.credentialSubject) == []
    ensures r.Ok? ==> r.value == DecodeCredential(value, dates, proofOf).value
  {
    var schemaVc :- MapError(DecodeCredential(schema, dates, proofOf), (f: DecodeFailure) => Malformed(f));
    var vc :- MapError(DecodeCredential(value, dates, proofOf), (f: DecodeFailure) => Malformed(f));
    if !engine.compiles(schemaVc.credentialSubject) then Err(SchemaInvalid)
    else
      var errors := engine.validate(schemaVc.credentialSubject, vc.credentialSubject);
      if errors == [] then Ok(vc) else Err(Message(ValicoReport(errors)))
  }

  /** A failed validation reports one line per valico error, in valico's order: splitting
      the text at newlines gives back each "path: detail" (or "path") line, then nothing. */
  lemma NewCredentialReport<P>(engine: ValicoEngine, dates: DateText, proofOf: Json -> Decoded<P>,
                               value: Json, schema: Json)
    requires DecodeCredential(schema, dates, proofOf).Ok? && DecodeCredential(value, dates, proofOf).Ok?
    requires engine.compiles(DecodeCredential(schema, dates, proofOf).value.credentialSubject)
    requires var errors := engine.validate(DecodeCredential(schema, dates, proofOf).value.credentialSubject,
                                           DecodeCredential(value, dates, proofOf).value.credentialSubject);
             errors != [] && forall i :: 0 <= i < |errors| ==> '\n' !in ValicoLine(errors[i])
    ensures var errors := engine.validate(DecodeCredential(schema, dates, proofOf).value.credentialSubject,
                                          DecodeCredential(value, dates, proofOf).value.credentialSubject);
            var r := NewCredential(engine, dates, proofOf, value, schema);
            r.Err? && r.error.Message? && Split(r.error.text, '\n') == MapSeq(errors, ValicoLine) + [""]
  {
    var errors := engine.validate(DecodeCredential(schema, dates, proofOf).value.credentialSubject,
                                  DecodeCredential(value, dates, proofOf).value.credentialSubject);
    SplitLines(MapSeq(errors, ValicoLine));
  }

  // ---------------------------------------------------------------- keys

  /** `gen_keys`: the PKCS#8 document the generator produced (an input here) and the public
      key of the pair it holds. */
  function GenKeys(ed: Ed25519, generated: Bytes): (r: Result<(Bytes, Bytes), Error>)
    ensures r.Ok? <==> ed.fromPkcs8(generated).Some?
    ensures r.Ok? ==> r.value.0 == generated && Some(r.value.1) == PairedPublicKey(ed, generated)
  {
    var pair :- OkOr(ed.fromPkcs8(generated), KeyRejected);
    Ok((generated, ed.publicKeyOf(pair)))
  }

  /** A freshly generated key pair signs a credential that then verifies under its public
      key. */
  lemma GeneratedKeysVerify(ed: Ed25519, w: Writer, dates: DateText, generated: Bytes,
                            vc: VerifiableCredential<RawProof>, now: DateTime)
    requires Correct(ed) && GenKeys(ed, generated).Ok?
    ensures var keys := GenKeys(ed, generated).value;
            var s := Signed(ed, w, dates, NativeProtocol(dates), Credential(vc), keys.0, now);
            s.Ok? && Verified(ed, w, dates, NativeProtocol(dates), s.value, keys.1) == Ok(Unit)
  {
    SignThenVerify(ed, w, dates, NativeProtocol(dates), Credential(vc), generated, now);
  }
}
