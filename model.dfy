/** The crate's data model (native.rs:13-103, repeated in wasm.rs:11-101): credentials,
    presentations and their parts.  Every "scalar or list" field of the JSON form is the
    two-armed `OneOrMany`, which remembers the arm it was built with.  The model is generic
    in the proof shape, because the crate's snapshots disagree on it. */
module Model {
  import opened Base
  import opened Json
  import opened Urls
  import opened Primitives

  /** `Single(T)` or `Multiple(Vec<T>)`: the shape of TypeEnum, StatusEnum, SchemaEnum and
      VerifiableCredentialEnum. */
  datatype OneOrMany<+T> = Single(one: T) | Multiple(many: seq<T>)

  type TypeEnum = OneOrMany<string>

  datatype CredentialStatus = CredentialStatus(id: Option<Url>, statusType: TypeEnum)

  type StatusEnum = OneOrMany<CredentialStatus>

  datatype CredentialSchema = CredentialSchema(id: Url, credentialType: string)

  type SchemaEnum = OneOrMany<CredentialSchema>

  datatype VerifiableCredential<+P> = VerifiableCredential(
    context: seq<Url>,
    id: Option<Url>,
    vcType: TypeEnum,
    name: Option<string>,
    description: Option<string>,
    issuer: Url,
    validFrom: Option<DateTime>,
    validUntil: Option<DateTime>,
    credentialStatus: Option<StatusEnum>,
    credentialSchema: SchemaEnum,
    credentialSubject: Json,
    proof: Option<P>)

  datatype VerifiablePresentation<+P> = VerifiablePresentation(
    id: Option<Url>,
    vpType: TypeEnum,
    verifiableCredential: OneOrMany<VerifiableCredential<P>>,
    holder: Option<Url>,
    proof: Option<P>)

  /** The proof of native.rs:94-103: the raw signature bytes. */
  datatype RawProof = RawProof(
    proofType: string, created: DateTime, cryptosuite: string, proofPurpose: string,
    proofValue: Bytes)

  /** The proof the crate uses with verifiable_credential.rs and verifiable_presentation.rs:
      the signature as base64 text. */
  datatype EncodedProof = EncodedProof(
    proofType: string, created: DateTime, cryptosuite: string, proofPurpose: string,
    proofValue: string)

  /** The proof of wasm.rs:94-101 and of the protobuf bridge: a base64 `jws`. */
  datatype JwsProof = JwsProof(proofType: string, jws: string, proofPurpose: string, created: DateTime)

  /** The implementors of the signing trait: a credential or a presentation. */
  datatype Document<+P> = Credential(vc: VerifiableCredential<P>) | Presentation(vp: VerifiablePresentation<P>)
  {
    function Proof(): Option<P> {
      match this
      case Credential(vc) => vc.proof
      case Presentation(vp) => vp.proof
    }

    /** The same document with its `proof` field replaced and every other field kept. */
    function WithProof(p: Option<P>): (r: Document<P>)
      ensures r.Proof() == p
      ensures r.Credential? <==> Credential?
      ensures Credential? ==> r.vc.context == vc.context && r.vc.credentialSubject == vc.credentialSubject
    {
      match this
      case Credential(vc) => Credential(vc.(proof := p))
      case Presentation(vp) => Presentation(vp.(proof := p))
    }
  }

  /** Replacing the proof twice keeps only the second; putting the old proof back restores
      the document. */
  lemma WithProofLaws<P>(d: Document<P>, p: Option<P>, q: Option<P>)
    ensures d.WithProof(p).WithProof(q) == d.WithProof(q)
    ensures d.WithProof(d.Proof()) == d
  {
  }
}
