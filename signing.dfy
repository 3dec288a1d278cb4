/** The signing protocol every snapshot of the crate follows (native.rs:105-139,
    verifiable_credential.rs:196-227, verifiable_presentation.rs:36-67, wasm.rs:110-134 and
    170-194): `sign` turns a PKCS#8 key into a key pair, signs the JSON text of the document
    and attaches a proof built from the signature; `verify` takes the proof out of a clone,
    reads the signature back and checks it against the JSON text of the clone.  What varies
    between snapshots (the proof's shape and constants, the error texts) is a `Protocol`. */
module Signing {
  import opened Base
  import opened Json
  import opened Primitives
  import opened Model
  import opened Serde
  import opened SerdeLaws

  /** `serde_json::to_string` then `as_bytes`: the serde value printed as JSON text, and
      that text as UTF-8. */
  datatype Writer = Writer(text: TextCodec, utf8: string -> Bytes)

  /** serde_json parses back what it prints, and UTF-8 encoding is injective. */
  ghost predicate Faithful(w: Writer) {
    LawfulText(w.text) && forall a, b :: w.utf8(a) == w.utf8(b) ==> a == b
  }

  /** What one snapshot puts into a proof and reads out of it. */
  datatype Protocol<!P> = Protocol(
    proofJson: P -> Json,                    // the serde form of its proof
    proofOf: Json -> Decoded<P>,
    makeProof: (DateTime, Bytes) -> P,       // the proof `sign` attaches at a time, for a signature
    signatureOf: P -> Result<Bytes, Error>,  // the signature `verify` reads back out of a proof
    unsigned: Document<P> -> string,         // the error text for a document with no proof
    rejected: Error)                         // how a signature that does not check is reported

  /** The signature put into a proof is the signature read back out of it. */
  ghost predicate Carries<P(!new)>(pr: Protocol<P>) {
    forall t, sig :: pr.signatureOf(pr.makeProof(t, sig)) == Ok(sig)
  }

  /** The bytes `sign` and `verify` hand to Ed25519: the document's JSON text. */
  function MessageOf<P>(w: Writer, dates: DateText, pr: Protocol<P>, d: Document<P>): Bytes {
    w.utf8(w.text.toText(EncodeDocument(d, dates, pr.proofJson)))
  }

  /** Different documents are signed as different bytes. */
  lemma MessageInjective<P(!new)>(w: Writer, dates: DateText, pr: Protocol<P>, a: Document<P>, b: Document<P>)
    requires Faithful(w) && LawfulDates(dates) && ProofCodec(pr.proofJson, pr.proofOf)
    ensures MessageOf(w, dates, pr, a) == MessageOf(w, dates, pr, b) <==> a == b
  {
    var ja := EncodeDocument(a, dates, pr.proofJson);
    var jb := EncodeDocument(b, dates, pr.proofJson);
    if MessageOf(w, dates, pr, a) == MessageOf(w, dates, pr, b) {
      assert w.text.toText(ja) == w.text.toText(jb);
      assert w.text.fromText(w.text.toText(ja)) == Some(ja);
      assert w.text.fromText(w.text.toText(jb)) == Some(jb);
    }
    EncodeDocumentInjective(a, b, dates, pr.proofJson, pr.proofOf);
  }

  /** `sign` as the crate writes it: the signature covers the document as it stands,
      including any proof it already carries. */
  function SignedAsWritten<P>(ed: Ed25519, w: Writer, dates: DateText, pr: Protocol<P>,
                              d: Document<P>, privateKey: Bytes, now: DateTime): (r: Result<Document<P>, Error>)
    ensures r.Ok? <==> ed.fromPkcs8(privateKey).Some?
    ensures r.Err? ==> r.error == KeyRejected
    ensures r.Ok? ==> r.value.WithProof(None) == d.WithProof(None) && r.value.Proof().Some?
  {
    var pair :- OkOr(ed.fromPkcs8(privateKey), KeyRejected);
    Ok(d.WithProof(Some(pr.makeProof(now, ed.sign(pair, MessageOf(w, dates, pr, d))))))
  }

  /** `sign` corrected: the signature covers the document without a proof, which is what
      `verify` checks it against. */
  function Signed<P>(ed: Ed25519, w: Writer, dates: DateText, pr: Protocol<P>,
                     d: Document<P>, privateKey: Bytes, now: DateTime): (r: Result<Document<P>, Error>)
    ensures r.Ok? <==> ed.fromPkcs8(privateKey).Some?
    ensures r.Err? ==> r.error == KeyRejected
    ensures r.Ok? ==> r.value.WithProof(None) == d.WithProof(None) && r.value.Proof().Some?
  {
    var pair :- OkOr(ed.fromPkcs8(privateKey), KeyRejected);
    Ok(d.WithProof(Some(pr.makeProof(now, ed.sign(pair, MessageOf(w, dates, pr, d.WithProof(None)))))))
  }

  /** `verify`: accepts exactly when there is a proof, its signature can be read, and the
      signature checks against the document with the proof removed. */
  function Verified<P>(ed: Ed25519, w: Writer, dates: DateText, pr: Protocol<P>,
                       d: Document<P>, publicKey: Bytes): (r: Outcome)
    ensures d.Proof().None? ==> r == Err(Message(pr.unsigned(d)))
    ensures d.Proof().Some? && pr.signatureOf(d.Proof().value).Err? ==> r == Err(pr.signatureOf(d.Proof().value).error)
    ensures r.Ok? <==> d.Proof().Some? && pr.signatureOf(d.Proof().value).Ok?
                       && ed.verify(publicKey, MessageOf(w, dates, pr, d.WithProof(None)),
                                    pr.signatureOf(d.Proof().value).value)
  {
    var proof :- OkOr(d.Proof(), Message(pr.unsigned(d)));
    var signature :- pr.signatureOf(proof);
    if ed.verify(publicKey, MessageOf(w, dates, pr, d.WithProof(None)), signature) then Ok(Unit)
    else Err(pr.rejected)
  }

  /** Signing with a key that `from_pkcs8` accepts, then verifying with that key pair's
      public key, succeeds for every document. */
  lemma SignThenVerify<P(!new)>(ed: Ed25519, w: Writer, dates: DateText, pr: Protocol<P>,
                                d: Document<P>, privateKey: Bytes, now: DateTime)
    requires Correct(ed) && Carries(pr) && ed.fromPkcs8(privateKey).Some?
    ensures var s := Signed(ed, w, dates, pr, d, privateKey, now);
            s.Ok? && Verified(ed, w, dates, pr, s.value, ed.publicKeyOf(ed.fromPkcs8(privateKey).value)) == Ok(Unit)
  {
    var pair := ed.fromPkcs8(privateKey).value;
    var message := MessageOf(w, dates, pr, d.WithProof(None));
    var signature := ed.sign(pair, message);
    var s := Signed(ed, w, dates, pr, d, privateKey, now).value;
    assert s == d.WithProof(Some(pr.makeProof(now, signature)));
    assert pr.signatureOf(pr.makeProof(now, signature)) == Ok(signature);
    WithProofLaws(d, Some(pr.makeProof(now, signature)), None);
    assert ed.verify(ed.publicKeyOf(pair), message, signature);
  }

  /** For a document that has no proof yet, the code as written signs the same bytes as the
      corrected one, so sign-then-verify holds for it too. */
  lemma SignUnsignedThenVerify<P(!new)>(ed: Ed25519, w: Writer, dates: DateText, pr: Protocol<P>,
                                        d: Document<P>, privateKey: Bytes, now: DateTime)
    requires Correct(ed) && Carries(pr) && ed.fromPkcs8(privateKey).Some? && d.Proof().None?
    ensures var s := SignedAsWritten(ed, w, dates, pr, d, privateKey, now);
            s.Ok? && Verified(ed, w, dates, pr, s.value, ed.publicKeyOf(ed.fromPkcs8(privateKey).value)) == Ok(Unit)
  {
    WithProofLaws(d, None, None);
    assert d.WithProof(None) == d;
    SignThenVerify(ed, w, dates, pr, d, privateKey, now);
  }

  /** The code as written cannot re-sign: once a document carries a proof, signing it again
      yields a proof that never verifies, even under the signer's own public key. */
  lemma ResignAsWrittenFails<P(!new)>(ed: Ed25519, w: Writer, dates: DateText, pr: Protocol<P>,
                                      d: Document<P>, privateKey: Bytes, now: DateTime)
    requires Binding(ed) && Carries(pr) && Faithful(w) && LawfulDates(dates)
    requires ProofCodec(pr.proofJson, pr.proofOf)
    requires ed.fromPkcs8(privateKey).Some? && d.Proof().Some?
    ensures var s := SignedAsWritten(ed, w, dates, pr, d, privateKey, now);
            s.Ok? && Verified(ed, w, dates, pr, s.value, ed.publicKeyOf(ed.fromPkcs8(privateKey).value)) == Err(pr.rejected)
  {
    var pair := ed.fromPkcs8(privateKey).value;
    var signedMessage := MessageOf(w, dates, pr, d);
    var checkedMessage := MessageOf(w, dates, pr, d.WithProof(None));
    var signature := ed.sign(pair, signedMessage);
    var s := SignedAsWritten(ed, w, dates, pr, d, privateKey, now).value;
    assert s == d.WithProof(Some(pr.makeProof(now, signature)));
    assert pr.signatureOf(pr.makeProof(now, signature)) == Ok(signature);
    WithProofLaws(d, Some(pr.makeProof(now, signature)), None);
    assert d != d.WithProof(None) by { assert d.WithProof(None).Proof() == None; }
    MessageInjective(w, dates, pr, d, d.WithProof(None));
    assert !ed.verify(ed.publicKeyOf(pair), checkedMessage, signature);
  }

  /** A proof does not carry over: moving a signed document's proof onto a document with
      different content makes `verify` fail. */
  lemma TamperedFails<P(!new)>(ed: Ed25519, w: Writer, dates: DateText, pr: Protocol<P>,
                               d: Document<P>, t: Document<P>, privateKey: Bytes, now: DateTime)
    requires Binding(ed) && Carries(pr) && Faithful(w) && LawfulDates(dates)
    requires ProofCodec(pr.proofJson, pr.proofOf) && ed.fromPkcs8(privateKey).Some?
    requires t.Proof() == Signed(ed, w, dates, pr, d, privateKey, now).value.Proof()
    requires t.WithProof(None) != d.WithProof(None)
    ensures Verified(ed, w, dates, pr, t, ed.publicKeyOf(ed.fromPkcs8(privateKey).value)) == Err(pr.rejected)
  {
    var pair := ed.fromPkcs8(privateKey).value;
    var signature := ed.sign(pair, MessageOf(w, dates, pr, d.WithProof(None)));
    assert t.Proof() == Some(pr.makeProof(now, signature));
    assert pr.signatureOf(pr.makeProof(now, signature)) == Ok(signature);
    MessageInjective(w, dates, pr, t.WithProof(None), d.WithProof(None));
    assert !ed.verify(ed.publicKeyOf(pair), MessageOf(w, dates, pr, t.WithProof(None)), signature);
  }

  /** A credential or presentation whose proof the signing methods update in place. */
  class Signable<P> {
    var document: Document<P>

    constructor(d: Document<P>)
      ensures document == d
    {
      document := d;
    }

    /** `get_proof`, `proof.take()`: hands out the proof and leaves none behind. */
    method TakeProof(unsigned: Document<P> -> string) returns (r: Result<P, Error>)
      modifies this
      ensures document == old(document).WithProof(None)
      ensures old(document).Proof().Some? ==> r == Ok(old(document).Proof().value)
      ensures old(document).Proof().None? ==> r == Err(Message(unsigned(old(document))))
    {
      r := OkOr(document.Proof(), Message(unsigned(document)));
      document := document.WithProof(None);
    }

    /** `set_proof`: always succeeds and replaces the proof, nothing else. */
    method SetProof(p: P) returns (r: Outcome)
      modifies this
      ensures r == Ok(Unit)
      ensures document == old(document).WithProof(Some(p))
    {
      document := document.WithProof(Some(p));
      r := Ok(Unit);
    }

    /** `sign`, with the signature taken over the document without its proof (see
        `SignedAsWritten` for the code as written). */
    method Sign(ed: Ed25519, w: Writer, dates: DateText, pr: Protocol<P>, privateKey: Bytes, now: DateTime)
      returns (r: Outcome)
      modifies this
      ensures r.Ok? <==> ed.fromPkcs8(privateKey).Some?
      ensures r.Err? ==> r.error == KeyRejected && document == old(document)
      ensures r.Ok? ==> document == Signed(ed, w, dates, pr, old(document), privateKey, now).value
    {
      var pair := ed.fromPkcs8(privateKey);
      if pair.None? {
        return Err(KeyRejected);
      }
      var signature := ed.sign(pair.value, MessageOf(w, dates, pr, document.WithProof(None)));
      r := SetProof(pr.makeProof(now, signature));
    }

    /** `verify`: works on a clone, so the document itself is left as it is. */
    method Verify(ed: Ed25519, w: Writer, dates: DateText, pr: Protocol<P>, publicKey: Bytes)
      returns (r: Outcome)
      ensures r == Verified(ed, w, dates, pr, document, publicKey)
    {
      var clone := new Signable(document);
      var proof := clone.TakeProof(pr.unsigned);
      if proof.Err? {
        return Err(proof.error);
      }
      var signature := pr.signatureOf(proof.value);
      if signature.Err? {
        return Err(signature.error);
      }
      if ed.verify(publicKey, MessageOf(w, dates, pr, clone.document), signature.value) {
        r := Ok(Unit);
      } else {
        r := Err(pr.rejected);
      }
    }
  }
}
