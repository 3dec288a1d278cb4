/** verifiable_credential.rs: the base64 proof, `schema_check` (the embedded JSON Schema
    meta-schema as the root of trust, or a schema credential whose own signature must
    verify), `new`, `create` and the signing protocol of this snapshot. */
module Credential {
  import opened Base
  import opened Json
  import opened Strings
  import opened Urls
  import opened Primitives
  import opened Model
  import opened Serde
  import opened SerdeLaws
  import opened SchemaEngines
  import opened Signing

  // ---------------------------------------------------------------- signing

  /** The proof `sign` attaches (verifiable_credential.rs:202-208): the signature in base64. */
  function MakeProof(b: Base64): (r: (DateTime, Bytes) -> EncodedProof)
    ensures forall now, signature :: r(now, signature).created == now && r(now, signature).proofValue == b.encode(signature)
  {
    (now: DateTime, signature: Bytes) =>
      EncodedProof("DataIntegrityProof", now, "eddsa-rdfc-2022", "assertionMethod", b.encode(signature))
  }

  /** `verify` reads the signature back by base64-decoding `proof_value`. */
  function SignatureOf(b: Base64): EncodedProof -> Result<Bytes, Error> {
    (p: EncodedProof) => OkOr(b.decode(p.proofValue), Base64Invalid)
  }

  /** The protocol shared by verifiable_credential.rs and verifiable_presentation.rs; they
      differ only in the text for a missing proof.  Any failed check reads "Failed to verify". */
  function Base64Protocol(b: Base64, dates: DateText, unsignedText: string): (pr: Protocol<EncodedProof>)
    ensures LawfulBase64(b) ==> Carries(pr)
    ensures forall d :: pr.unsigned(d) == unsignedText
  {
    Protocol(EncodedProofJson(dates), EncodedProofOf(dates), MakeProof(b), SignatureOf(b),
             (d: Document<EncodedProof>) => unsignedText, Message("Failed to verify"))
  }

  function CredentialProtocol(b: Base64, dates: DateText): Protocol<EncodedProof> {
    Base64Protocol(b, dates, "VC is unsigned")
  }

  /** `sign` attaches {"DataIntegrityProof", now, "eddsa-rdfc-2022", "assertionMethod"} and
      the base64 of the signature over the credential without its proof. */
  lemma SignedProof(ed: Ed25519, w: Writer, dates: DateText, b: Base64,
                    vc: VerifiableCredential<EncodedProof>, privateKey: Bytes, now: DateTime)
    requires ed.fromPkcs8(privateKey).Some?
    ensures var pr := CredentialProtocol(b, dates);
            var s := Signed(ed, w, dates, pr, Credential(vc), privateKey, now);
            var signature := ed.sign(ed.fromPkcs8(privateKey).value, MessageOf(w, dates, pr, Credential(vc.(proof := None))));
            s.Ok? && s.value == Credential(vc.(proof := Some(EncodedProof(
                       "DataIntegrityProof", now, "eddsa-rdfc-2022", "assertionMethod", b.encode(signature)))))
  {
  }

  /** Signing a credential and verifying it with the paired public key succeeds. */
  lemma SignThenVerifyCredential(ed: Ed25519, w: Writer, dates: DateText, b: Base64,
                                 vc: VerifiableCredential<EncodedProof>, privateKey: Bytes, now: DateTime)
    requires Correct(ed) && LawfulBase64(b) && ed.fromPkcs8(privateKey).Some?
    ensures var pr := CredentialProtocol(b, dates);
            var s := Signed(ed, w, dates, pr, Credential(vc), privateKey, now);
            s.Ok? && Verified(ed, w, dates, pr, s.value, ed.publicKeyOf(ed.fromPkcs8(privateKey).value)) == Ok(Unit)
  {
    SignThenVerify(ed, w, dates, CredentialProtocol(b, dates), Credential(vc), privateKey, now);
  }

  /** A `proof_value` that is not base64 is an error of its own, whatever the key. */
  lemma Base64Rejected(ed: Ed25519, w: Writer, dates: DateText, b: Base64, unsignedText: string,
                       d: Document<EncodedProof>, publicKey: Bytes)
    requires d.Proof().Some? && b.decode(d.Proof().value.proofValue).None?
    ensures Verified(ed, w, dates, Base64Protocol(b, dates, unsignedText), d, publicKey) == Err(Base64Invalid)
  {
    assert SignatureOf(b)(d.Proof().value) == Err(Base64Invalid);
  }

  // ---------------------------------------------------------------- schema_check

  /** A schema credential together with the public key its signature must verify under. */
  datatype SignedSchema = SignedSchema(vc: VerifiableCredential<EncodedProof>, publicKey: Bytes)

  /** Everything `schema_check` relies on besides its arguments: the signature machinery
      that checks a supplied schema, the jsonschema engine, and the parsed meta-schema
      embedded in the crate. */
  datatype Env = Env(ed: Ed25519, w: Writer, dates: DateText, b: Base64,
                     engine: JsonSchemaEngine, metaSchema: Json)

  function ViolationLine(v: Violation): (r: string)
    ensures "Schema validation error: " <= r
    ensures |r| >= |v.instancePath| + 5 && r[|r| - |v.instancePath| - 5..] == " At: " + v.instancePath
  {
    "Schema validation error: " + v.message + " At: " + v.instancePath
  }

  /** All violations, one per line, joined with newlines. */
  function Report(violations: seq<Violation>): (r: string)
    ensures violations == [] <==> r == ""
    ensures violations != [] ==> ViolationLine(violations[0]) <= r
  {
    Join(MapSeq(violations, ViolationLine), "\n")
  }

  /** Splitting the report at newlines gives back each violation's line, in order, when
      no message or path itself contains a newline. */
  lemma ReportSplits(violations: seq<Violation>)
    requires violations != []
    requires forall i :: 0 <= i < |violations| ==> '\n' !in ViolationLine(violations[i])
    ensures Split(Report(violations), '\n') == MapSeq(violations, ViolationLine)
  {
    SplitJoin(MapSeq(violations, ViolationLine), '\n');
  }

  /** Validates the subject against a schema: the credential itself, unchanged, when there
      is no violation. */
  function Validate(engine: JsonSchemaEngine, schema: Json, vc: VerifiableCredential<EncodedProof>)
    : (r: Result<VerifiableCredential<EncodedProof>, Error>)
    ensures r.Ok? <==> engine.compiles(schema) && engine.iterErrors(schema, vc.credentialSubject) == []
    ensures r.Ok? ==> r.value == vc
    ensures !engine.compiles(schema) ==> r == Err(SchemaInvalid)
    ensures engine.compiles(schema) && r.Err? ==>
              r == Err(Message(Report(engine.iterErrors(schema, vc.credentialSubject))))
  {
    if !engine.compiles(schema) then Err(SchemaInvalid)
    else
      var errors := engine.iterErrors(schema, vc.credentialSubject);
      if errors == [] then Ok(vc) else Err(Message(Report(errors)))
  }

  /** Whether a credential names the meta-schema as its one schema. */
  predicate NamesMetaSchema(vc: VerifiableCredential<EncodedProof>) {
    vc.credentialSchema.Single? && ToString(vc.credentialSchema.one.id) == MetaSchemaId
  }

  function CheckSignedSchema(env: Env, s: SignedSchema): (r: Outcome)
    ensures s.vc.proof.None? ==> r == Err(Message("VC is unsigned"))
    ensures s.vc.proof.Some? && env.b.decode(s.vc.proof.value.proofValue).None? ==> r == Err(Base64Invalid)
    ensures r.Ok? ==> s.vc.proof.Some?
  {
    Verified(env.ed, env.w, env.dates, CredentialProtocol(env.b, env.dates), Credential(s.vc), s.publicKey)
  }

  /** `schema_check`. */
  function SchemaCheck(env: Env, vc: VerifiableCredential<EncodedProof>, schema: Option<SignedSchema>)
    : (r: Result<VerifiableCredential<EncodedProof>, Error>)
    ensures r.Ok? ==> r.value == vc
    ensures schema.None? && NamesMetaSchema(vc) ==> r == Validate(env.engine, env.metaSchema, vc)
    ensures schema.None? && !NamesMetaSchema(vc) ==> r == Err(Message("Missing schema"))
    ensures schema.Some? && CheckSignedSchema(env, schema.value).Err? ==>
              r == Err(Message("Failed to verify schema signature"))
    ensures schema.Some? && CheckSignedSchema(env, schema.value).Ok? ==>
              r == Validate(env.engine, schema.value.vc.credentialSubject, vc)
  {
    match schema
    case None =>
      if NamesMetaSchema(vc) then Validate(env.engine, env.metaSchema, vc) else Err(Message("Missing schema"))
    case Some(s) =>
      if CheckSignedSchema(env, s).Ok? then Validate(env.engine, s.vc.credentialSubject, vc)
      else Err(Message("Failed to verify schema signature"))
  }

  /** A schema whose signature does not verify is refused before any validator is built:
      the outcome does not depend on the engine or on the meta-schema. */
  lemma UnverifiedSchemaIgnoresEngine(env: Env, engine: JsonSchemaEngine, metaSchema: Json,
                                      vc: VerifiableCredential<EncodedProof>, s: SignedSchema)
    requires CheckSignedSchema(env, s).Err?
    ensures SchemaCheck(env, vc, Some(s)) == SchemaCheck(env.(engine := engine, metaSchema := metaSchema), vc, Some(s))
    ensures SchemaCheck(env, vc, Some(s)) == Err(Message("Failed to verify schema signature"))
  {
    assert CheckSignedSchema(env.(engine := engine, metaSchema := metaSchema), s) == CheckSignedSchema(env, s);
  }

  /** A schema credential signed with the key it is checked under passes the signature
      check, so the candidate is validated against its subject. */
  lemma SignedSchemaIsUsed(env: Env, vc: VerifiableCredential<EncodedProof>,
                           schemaVc: VerifiableCredential<EncodedProof>, privateKey: Bytes, now: DateTime)
    requires Correct(env.ed) && LawfulBase64(env.b) && env.ed.fromPkcs8(privateKey).Some?
    ensures var signed := Signed(env.ed, env.w, env.dates, CredentialProtocol(env.b, env.dates), Credential(schemaVc), privateKey, now);
            var s := SignedSchema(signed.value.vc, env.ed.publicKeyOf(env.ed.fromPkcs8(privateKey).value));
            SchemaCheck(env, vc, Some(s)) == Validate(env.engine, schemaVc.credentialSubject, vc)
  {
    var pr := CredentialProtocol(env.b, env.dates);
    SignThenVerify(env.ed, env.w, env.dates, pr, Credential(schemaVc), privateKey, now);
  }

  // ---------------------------------------------------------------- new and create

  /** `new` (native target): decode, then `schema_check`. */
  function New(env: Env, value: Json, schema: Option<SignedSchema>): (r: Result<VerifiableCredential<EncodedProof>, Error>)
    ensures DecodeCredential(value, env.dates, EncodedProofOf(env.dates)).Err? ==>
              r == Err(Malformed(DecodeCredential(value, env.dates, EncodedProofOf(env.dates)).error))
    ensures DecodeCredential(value, env.dates, EncodedProofOf(env.dates)).Ok? ==>
              r == SchemaCheck(env, DecodeCredential(value, env.dates, EncodedProofOf(env.dates)).value, schema)
  {
    var vc :- MapError(DecodeCredential(value, env.dates, EncodedProofOf(env.dates)), (f: DecodeFailure) => Malformed(f));
    SchemaCheck(env, vc, schema)
  }

  /** A credential written as JSON is taken back by `new` exactly as `schema_check` rules. */
  lemma NewOfEncoded(env: Env, vc: VerifiableCredential<EncodedProof>, schema: Option<SignedSchema>)
    requires LawfulDates(env.dates)
    ensures New(env, EncodeCredential(vc, env.dates, EncodedProofJson(env.dates)), schema) == SchemaCheck(env, vc, schema)
  {
    EncodedProofCodec(env.dates);
    CredentialRoundTrip(vc, env.dates, EncodedProofJson(env.dates), EncodedProofOf(env.dates));
  }

  /** The credential `create` builds around a subject (verifiable_credential.rs:231-249); the
      two fresh v4 UUIDs are inputs. */
  function Created<P>(subject: Json, schemaId: string, idUuid: string, issuerUuid: string)
    : (r: Result<VerifiableCredential<P>, Error>)
    ensures r.Ok? <==> IsUrl(schemaId)
    ensures r.Err? ==> r.error == UrlInvalid(schemaId)
    ensures r.Ok? ==> r.value.context == [CredentialsV2]
                      && r.value.id == Some(UrnUuidPrefix + idUuid)
                      && r.value.vcType == Single("VerifiableCredential")
                      && r.value.issuer == UrnUuidPrefix + issuerUuid
                      && r.value.credentialSchema == Single(CredentialSchema(schemaId, "JsonSchema"))
                      && r.value.credentialSubject == subject
                      && r.value.name.None? && r.value.description.None?
                      && r.value.validFrom.None? && r.value.validUntil.None?
                      && r.value.credentialStatus.None? && r.value.proof.None?
  {
    // the context and the two "urn:uuid:" ids always parse; only the schema id can fail
    CredentialsV2Parses();
    UrnUuidParses(idUuid);
    UrnUuidParses(issuerUuid);
    var context := Parse(CredentialsV2).value;
    var id := Parse(UrnUuidPrefix + idUuid).value;
    var issuer := Parse(UrnUuidPrefix + issuerUuid).value;
    var schemaUrl :- OkOr(Parse(schemaId), UrlInvalid(schemaId));
    Ok(VerifiableCredential([context], Some(id), Single("VerifiableCredential"), None, None, issuer,
                            None, None, None, Single(CredentialSchema(schemaUrl, "JsonSchema")), subject, None))
  }

  /** The schema id `create` uses: the meta-schema's without a schema, else the schema
      subject's "$id", which must be present and a string. */
  function SchemaIdOf(schema: Option<SignedSchema>): (r: Result<string, Error>)
    ensures schema.None? ==> r == Ok(MetaSchemaId)
    ensures schema.Some? && Get(schema.value.vc.credentialSubject, "$id").None? ==>
              r == Err(Message("No $id field in schema"))
    ensures schema.Some? && Get(schema.value.vc.credentialSubject, "$id").Some? ==>
              r == OkOr(AsStr(schema.value.vc.credentialSubject.fields["$id"]), Message("$id is not str"))
  {
    match schema
    case None => Ok(MetaSchemaId)
    case Some(s) =>
      var id :- OkOr(Get(s.vc.credentialSubject, "$id"), Message("No $id field in schema"));
      OkOr(AsStr(id), Message("$id is not str"))
  }

  /** `create` (native target). */
  function Create(env: Env, subject: Json, schema: Option<SignedSchema>, idUuid: string, issuerUuid: string)
    : (r: Result<VerifiableCredential<EncodedProof>, Error>)
    ensures SchemaIdOf(schema).Err? ==> r == Err(SchemaIdOf(schema).error)
    ensures SchemaIdOf(schema).Ok? && !IsUrl(SchemaIdOf(schema).value) ==> r == Err(UrlInvalid(SchemaIdOf(schema).value))
    ensures SchemaIdOf(schema).Ok? && Created<EncodedProof>(subject, SchemaIdOf(schema).value, idUuid, issuerUuid).Ok? ==>
              r == SchemaCheck(env, Created<EncodedProof>(subject, SchemaIdOf(schema).value, idUuid, issuerUuid).value, schema)
  {
    var schemaId :- SchemaIdOf(schema);
    var vc :- Created(subject, schemaId, idUuid, issuerUuid);
    SchemaCheck(env, vc, schema)
  }

  /** Without a schema, `create` always names the meta-schema, so the subject is validated
      against it and "Missing schema" never arises; success returns the built credential. */
  lemma CreateWithoutSchema(env: Env, subject: Json, idUuid: string, issuerUuid: string)
    ensures var built := Created<EncodedProof>(subject, MetaSchemaId, idUuid, issuerUuid);
            built.Ok? && Create(env, subject, None, idUuid, issuerUuid) == Validate(env.engine, env.metaSchema, built.value)
  {
    MetaSchemaIdParses();
  }
}
