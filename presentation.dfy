/** verifiable_presentation.rs: `new`, and `sign`/`verify` with the base64 proof. */
module Presentation {
  import opened Base
  import opened Json
  import opened Primitives
  import opened Model
  import opened Serde
  import opened SerdeLaws
  import opened Signing
  import Credential

  /** The protocol of this file: the credential file's, with its own missing-proof text. */
  function PresentationProtocol(b: Base64, dates: DateText): Protocol<EncodedProof> {
    Credential.Base64Protocol(b, dates, "VP is unsigned")
  }

  /** `new`: decoding and nothing more. */
  function New(dates: DateText, value: Json): (r: Result<VerifiablePresentation<EncodedProof>, Error>)
    ensures r.Ok? <==> DecodePresentation(value, dates, EncodedProofOf(dates)).Ok?
    ensures r.Ok? ==> r.value == DecodePresentation(value, dates, EncodedProofOf(dates)).value
  {
    MapError(DecodePresentation(value, dates, EncodedProofOf(dates)), (f: DecodeFailure) => Malformed(f))
  }

  /** Every presentation can be rebuilt from its JSON form. */
  lemma NewRoundTrip(dates: DateText, vp: VerifiablePresentation<EncodedProof>)
    requires LawfulDates(dates)
    ensures New(dates, EncodePresentation(vp, dates, EncodedProofJson(dates))) == Ok(vp)
  {
    EncodedProofCodec(dates);
    PresentationRoundTrip(vp, dates, EncodedProofJson(dates), EncodedProofOf(dates));
  }

  /** Signing a presentation and verifying it with the paired public key succeeds. */
  lemma SignThenVerifyPresentation(ed: Ed25519, w: Writer, dates: DateText, b: Base64,
                                   vp: VerifiablePresentation<EncodedProof>, privateKey: Bytes, now: DateTime)
    requires Correct(ed) && LawfulBase64(b) && ed.fromPkcs8(privateKey).Some?
    ensures var pr := PresentationProtocol(b, dates);
            var s := Signed(ed, w, dates, pr, Presentation(vp), privateKey, now);
            s.Ok? && Verified(ed, w, dates, pr, s.value, ed.publicKeyOf(ed.fromPkcs8(privateKey).value)) == Ok(Unit)
  {
    SignThenVerify(ed, w, dates, PresentationProtocol(b, dates), Presentation(vp), privateKey, now);
  }

  /** A presentation changed after signing, but carrying the signed one's proof, is refused
      with "Failed to verify". */
  lemma TamperedPresentationFails(ed: Ed25519, w: Writer, dates: DateText, b: Base64,
                                  vp: VerifiablePresentation<EncodedProof>, t: VerifiablePresentation<EncodedProof>,
                                  privateKey: Bytes, now: DateTime)
    requires Binding(ed) && Faithful(w) && LawfulDates(dates) && LawfulBase64(b) && ed.fromPkcs8(privateKey).Some?
    requires t.proof == Signed(ed, w, dates, PresentationProtocol(b, dates), Presentation(vp), privateKey, now).value.Proof()
    requires t.(proof := None) != vp.(proof := None)
    ensures Verified(ed, w, dates, PresentationProtocol(b, dates), Presentation(t), ed.publicKeyOf(ed.fromPkcs8(privateKey).value))
            == Err(Message("Failed to verify"))
  {
    EncodedProofCodec(dates);
    TamperedFails(ed, w, dates, PresentationProtocol(b, dates), Presentation(vp), Presentation(t), privateKey, now);
  }
}
