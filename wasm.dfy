/** wasm.rs: the WebAssembly target's own structs, whose proof carries the signature as a
    base64 `jws`, its constructors, `sign`/`verify` and `gen_keys`. */
module Wasm {
  import opened Base
  import opened Json
  import opened Primitives
  import opened Model
  import opened Serde
  import opened SerdeLaws
  import opened SchemaEngines
  import opened Signing
  import Native

  /** The proof `sign` attaches (wasm.rs:113-118, 173-178). */
  function MakeProof(b: Base64): (r: (DateTime, Bytes) -> JwsProof)
    ensures forall now, signature :: r(now, signature).created == now && r(now, signature).jws == b.encode(signature)
  {
    (now: DateTime, signature: Bytes) => JwsProof("JsonWebSignature2020", b.encode(signature), "assertionMethod", now)
  }

  /** `verify` reads the signature back by base64-decoding `jws`. */
  function SignatureOf(b: Base64): JwsProof -> Result<Bytes, Error> {
    (p: JwsProof) => OkOr(b.decode(p.jws), Base64Invalid)
  }

  /** Both document types report a missing proof as "VC is unsigned" and a failed check as
      ring's error. */
  function JwsProtocol(b: Base64, dates: DateText): (pr: Protocol<JwsProof>)
    ensures LawfulBase64(b) ==> Carries(pr)
    ensures forall d :: pr.unsigned(d) == "VC is unsigned"
  {
    Protocol(JwsProofJson(dates), JwsProofOf(dates), MakeProof(b), SignatureOf(b),
             (d: Document<JwsProof>) => "VC is unsigned", SignatureRejected)
  }

  /** Signing either document and verifying it with the paired public key succeeds. */
  lemma SignThenVerifyJws(ed: Ed25519, w: Writer, dates: DateText, b: Base64,
                          d: Document<JwsProof>, privateKey: Bytes, now: DateTime)
    requires Correct(ed) && LawfulBase64(b) && ed.fromPkcs8(privateKey).Some?
    ensures var pr := JwsProtocol(b, dates);
            var s := Signed(ed, w, dates, pr, d, privateKey, now);
            s.Ok? && s.value.Proof().Some? && s.value.Proof().value.proofType == "JsonWebSignature2020"
            && s.value.Proof().value.created == now
            && Verified(ed, w, dates, pr, s.value, ed.publicKeyOf(ed.fromPkcs8(privateKey).value)) == Ok(Unit)
  {
    SignThenVerify(ed, w, dates, JwsProtocol(b, dates), d, privateKey, now);
  }

  /** An unsigned presentation is reported with the credential's text. */
  lemma UnsignedPresentationSaysCredential(ed: Ed25519, w: Writer, dates: DateText, b: Base64,
                                           vp: VerifiablePresentation<JwsProof>, publicKey: Bytes)
    requires vp.proof.None?
    ensures Verified(ed, w, dates, JwsProtocol(b, dates), Presentation(vp), publicKey) == Err(Message("VC is unsigned"))
  {
  }

  /** `VerifiablePresentation::new`: decoding the JavaScript value and nothing more. */
  function NewPresentation(dates: DateText, value: Json): (r: Result<VerifiablePresentation<JwsProof>, Error>)
    ensures r.Ok? <==> DecodePresentation(value, dates, JwsProofOf(dates)).Ok?
    ensures r.Ok? ==> r.value == DecodePresentation(value, dates, JwsProofOf(dates)).value
  {
    MapError(DecodePresentation(value, dates, JwsProofOf(dates)), (f: DecodeFailure) => Malformed(f))
  }

  /** Every presentation can be rebuilt from its JSON form. */
  lemma NewPresentationRoundTrip(dates: DateText, vp: VerifiablePresentation<JwsProof>)
    requires LawfulDates(dates)
    ensures NewPresentation(dates, EncodePresentation(vp, dates, JwsProofJson(dates))) == Ok(vp)
  {
    JwsProofCodec(dates);
    PresentationRoundTrip(vp, dates, JwsProofJson(dates), JwsProofOf(dates));
  }

  /** `VerifiableCredential::new`: the valico check of native.rs over this target's structs. */
  function NewCredential(engine: ValicoEngine, dates: DateText, value: Json, schema: Json)
    : (r: Result<VerifiableCredential<JwsProof>, Error>)
    ensures r == Native.NewCredential(engine, dates, JwsProofOf(dates), value, schema)
    ensures r.Ok? ==> r.value == DecodeCredential(value, dates, JwsProofOf(dates)).value
  {
    Native.NewCredential(engine, dates, JwsProofOf(dates), value, schema)
  }

  /** For credentials written as JSON, `new` succeeds exactly when the schema credential's
      subject compiles and the candidate's subject has no valico error, and gives back the
      candidate. */
  lemma NewCredentialOfEncoded(engine: ValicoEngine, dates: DateText,
                               vc: VerifiableCredential<JwsProof>, schemaVc: VerifiableCredential<JwsProof>)
    requires LawfulDates(dates)
    ensures var r := NewCredential(engine, dates, EncodeCredential(vc, dates, JwsProofJson(dates)),
                                   EncodeCredential(schemaVc, dates, JwsProofJson(dates)));
            (r.Ok? <==> engine.compiles(schemaVc.credentialSubject)
                        && engine.validate(schemaVc.credentialSubject, vc.credentialSubject) == [])
            && (r.Ok? ==> r.value == vc)
  {
    JwsProofCodec(dates);
    CredentialRoundTrip(vc, dates, JwsProofJson(dates), JwsProofOf(dates));
    CredentialRoundTrip(schemaVc, dates, JwsProofJson(dates), JwsProofOf(dates));
  }

  /** The key pair handed to JavaScript; its getters return copies of the two fields. */
  datatype KeyPairStruct = KeyPairStruct(privateKey: Bytes, publicKey: Bytes)

  /** `gen_keys`: the PKCS#8 document the generator produced (an input here) and the public
      key of the pair it holds. */
  function GenKeys(ed: Ed25519, generated: Bytes): (r: Result<KeyPairStruct, Error>)
    ensures r.Ok? <==> ed.fromPkcs8(generated).Some?
    ensures r.Ok? ==> r.value.privateKey == generated && Some(r.value.publicKey) == PairedPublicKey(ed, generated)
  {
    var pair :- OkOr(ed.fromPkcs8(generated), KeyRejected);
    Ok(KeyPairStruct(generated, ed.publicKeyOf(pair)))
  }

  /** A generated pair signs a document that then verifies under its public key. */
  lemma GeneratedKeysVerify(ed: Ed25519, w: Writer, dates: DateText, b: Base64, generated: Bytes,
                            d: Document<JwsProof>, now: DateTime)
    requires Correct(ed) && LawfulBase64(b) && GenKeys(ed, generated).Ok?
    ensures var keys := GenKeys(ed, generated).value;
            var s := Signed(ed, w, dates, JwsProtocol(b, dates), d, keys.privateKey, now);
            s.Ok? && Verified(ed, w, dates, JwsProtocol(b, dates), s.value, keys.publicKey) == Ok(Unit)
  {
    SignThenVerify(ed, w, dates, JwsProtocol(b, dates), d, generated, now);
  }
}
