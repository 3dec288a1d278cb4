/** The prost messages generated from the crate's `verifiable_credentials` protobuf
    package, as protobuf.rs and protobuf/src/main.rs see them: every sub-message field is
    optional, every `oneof` is an optional choice, and repeated fields are sequences. */
module ProtoMessages {
  import opened Base

  /** A protobuf `int32`. */
  type Int32 = n: int | -0x8000_0000 <= n < 0x8000_0000

  /** `google.protobuf.Timestamp`: seconds (an `int64`, not bounded here) and nanoseconds. */
  datatype Timestamp = Timestamp(seconds: int, nanos: Int32)

  /** `google.protobuf.Any`: a type URL and the encoded message bytes. */
  datatype Any = Any(typeUrl: string, value: Bytes)

  /** `TypeStruct { oneof oneof_type { string single_type; RepeatedType multiple_type; } }`. */
  datatype TypeStruct = TypeStruct(oneofType: Option<OneofType>)
  datatype OneofType = SingleType(single: string) | MultipleType(repeatedType: seq<string>)

  datatype CredentialSchemaStruct = CredentialSchemaStruct(schemaId: string, schemaType: string)
  datatype CredentialSchemaChoice =
    | SingleSchema(schema: CredentialSchemaStruct)
    | MultipleSchema(repeatedSchema: seq<CredentialSchemaStruct>)

  datatype CredentialStatusStruct = CredentialStatusStruct(statusId: Option<string>, statusType: Option<TypeStruct>)
  datatype CredentialStatusChoice =
    | SingleStatus(status: CredentialStatusStruct)
    | MultipleStatus(repeatedStatus: seq<CredentialStatusStruct>)

  datatype ProofMessage = ProofMessage(proofType: string, jws: string, proofPurpose: string, created: Option<Timestamp>)

  datatype CredentialMessage = CredentialMessage(
    context: seq<string>,
    vcId: Option<string>,
    vcType: Option<TypeStruct>,
    name: Option<string>,
    description: Option<string>,
    issuer: string,
    validFrom: Option<Timestamp>,
    validUntil: Option<Timestamp>,
    credentialStatus: Option<CredentialStatusChoice>,
    credentialSchema: Option<CredentialSchemaChoice>,
    credentialSubject: Option<Any>,
    proof: Option<ProofMessage>)

  datatype CredentialChoice =
    | SingleVc(vc: CredentialMessage)
    | MultipleVc(repeatedVc: seq<CredentialMessage>)

  datatype PresentationMessage = PresentationMessage(
    vpId: Option<string>,
    vpType: Option<TypeStruct>,
    verifiableCredential: Option<CredentialChoice>,
    holder: Option<string>,
    proof: Option<ProofMessage>)
}
