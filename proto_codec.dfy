/** protobuf.rs (and its earlier copy, the credential half of protobuf/src/main.rs): the
    `From` conversions between the native credential model and the prost messages.  Going
    to the wire is total; coming back, every `unwrap()` and `panic!` of the source is a
    `ProtoFailure`, reported for the first field that fails in the source's order. */
module ProtoCodec {
  import opened Base
  import opened Json
  import opened Urls
  import opened Primitives
  import opened Model
  import opened ProtoMessages

  /** Why a message does not convert back. */
  datatype ProtoFailure =
    | Absent(field: string)                         // `.unwrap()` of an unset sub-message or `oneof`
    | Panicked(message: string)                     // the explicit `panic!` on a `TypeStruct` with no arm
    | UrlRejected(text: string)                     // `Url::from_str(..).unwrap()`
    | TimestampRejected(seconds: int, nanos: int)   // `DateTime::from_timestamp(..).unwrap()`
    | SubjectUndecodable                            // the `Any`'s bytes are not a string, or not JSON

  type Converted<T> = Result<T, ProtoFailure>

  /** The two encoders the subject passes through: serde_json's text form, and prost's
      encoding of a `String` message. */
  datatype StringWire = StringWire(encode: string -> Bytes, decode: Bytes -> Option<string>)

  ghost predicate LawfulStrings(s: StringWire) {
    forall text :: s.decode(s.encode(text)) == Some(text)
  }

  datatype Codecs = Codecs(json: TextCodec, strings: StringWire)

  ghost predicate Lawful(c: Codecs) {
    LawfulText(c.json) && LawfulStrings(c.strings)
  }

  /** `iter().map(..unwrap()).collect()`: converts every element in order, failing at the
      first element that fails. */
  function ConvertAll<T, U>(xs: seq<T>, f: T -> Converted<U>): (r: Converted<seq<U>>)
    ensures r.Ok? <==> forall i :: 0 <= i < |xs| ==> f(xs[i]).Ok?
    ensures r.Ok? ==> |r.value| == |xs| && forall i :: 0 <= i < |xs| ==> r.value[i] == f(xs[i]).value
  {
    if xs == [] then Ok([])
    else
      var head :- f(xs[0]);
      var tail :- ConvertAll(xs[1..], f);
      Ok([head] + tail)
  }

  /** Converting back what was converted out gives the elements back, in order. */
  lemma {:induction false} ConvertAllRoundTrip<T, U>(xs: seq<U>, enc: U -> T, dec: T -> Converted<U>)
    requires forall i :: 0 <= i < |xs| ==> dec(enc(xs[i])) == Ok(xs[i])
    ensures ConvertAll(MapSeq(xs, enc), dec) == Ok(xs)
  {
    if xs != [] {
      assert MapSeq(xs, enc)[1..] == MapSeq(xs[1..], enc);
      ConvertAllRoundTrip(xs[1..], enc, dec);
      assert [xs[0]] + xs[1..] == xs;
    }
  }

  // ---------------------------------------------------------------- leaves

  function UrlOf(text: string): (r: Converted<Url>)
    ensures r.Ok? <==> IsUrl(text)
    ensures r.Err? ==> r.error == UrlRejected(text)
    ensures r.Ok? ==> ToString(r.value) == text
  {
    OkOr(Parse(text), UrlRejected(text))
  }

  function OptionalUrlOf(text: Option<string>): (r: Converted<Option<Url>>)
    ensures r.Ok? <==> (text.Some? ==> IsUrl(text.value))
    ensures r.Err? ==> r.error == UrlRejected(text.value)
    ensures r.Ok? ==> (r.value.None? <==> text.None?)
    ensures r.Ok? && text.Some? ==> ToString(r.value.value) == text.value
  {
    match text
    case None => Ok(None)
    case Some(t) => var u :- UrlOf(t); Ok(Some(u))
  }

  function OptionalText(u: Option<Url>): (r: Option<string>)
    ensures r.None? <==> u.None?
  {
    match u
    case None => None
    case Some(u) => Some(ToString(u))
  }

  lemma OptionalUrlRoundTrip(u: Option<Url>)
    ensures OptionalUrlOf(OptionalText(u)) == Ok(u)
  {
    if u.Some? {
      ParsePrinted(u.value);
    }
  }

  /** `Timestamp::from_str(&t.to_rfc3339())`: the instant's seconds and nanoseconds. */
  function TimestampOf(t: DateTime): (r: Timestamp)
    ensures r.seconds == t.seconds && 0 <= r.nanos < 1_000_000_000
  {
    Timestamp(t.seconds, t.nanos)
  }

  /** `DateTime::from_timestamp(ts.seconds, ts.nanos as u32).unwrap()`. */
  function DateTimeOf(ts: Timestamp): (r: Converted<DateTime>)
    ensures r.Ok? <==> 0 <= ts.nanos < 1_000_000_000
    ensures r.Ok? ==> r.value.seconds == ts.seconds && r.value.nanos == ts.nanos
    ensures r.Err? ==> r.error == TimestampRejected(ts.seconds, ts.nanos)
  {
    OkOr(FromTimestamp(ts.seconds, AsU32(ts.nanos)), TimestampRejected(ts.seconds, ts.nanos))
  }

  lemma TimestampRoundTrip(t: DateTime)
    ensures DateTimeOf(TimestampOf(t)) == Ok(t)
  {
  }

  /** The `as u32` cast does not rescue a negative nanosecond count: it becomes at least
      2^31, which `from_timestamp` refuses. */
  lemma NegativeNanosRejected(ts: Timestamp)
    requires ts.nanos < 0
    ensures DateTimeOf(ts) == Err(TimestampRejected(ts.seconds, ts.nanos))
  {
  }

  function OptionalTimestamp(t: Option<DateTime>): (r: Option<Timestamp>)
    ensures r.None? <==> t.None?
  {
    match t
    case None => None
    case Some(t) => Some(TimestampOf(t))
  }

  function OptionalDateTime(ts: Option<Timestamp>): (r: Converted<Option<DateTime>>)
    ensures r.Ok? ==> (r.value.None? <==> ts.None?)
    ensures ts.Some? ==> (r.Ok? <==> DateTimeOf(ts.value).Ok?)
    ensures r.Ok? && ts.Some? ==> r.value.value == DateTimeOf(ts.value).value
  {
    match ts
    case None => Ok(None)
    case Some(ts) => var t :- DateTimeOf(ts); Ok(Some(t))
  }

  // ---------------------------------------------------------------- TypeStruct

  /** A `TypeEnum` as a `TypeStruct`: the arm is kept, so a one-element list stays a list. */
  function TypeStructOf(t: TypeEnum): (r: TypeStruct)
    ensures r.oneofType.Some?
    ensures t.Single? <==> r.oneofType.value.SingleType?
    ensures t.Single? ==> r.oneofType.value.single == t.one
    ensures t.Multiple? ==> r.oneofType.value.repeatedType == t.many
  {
    match t
    case Single(s) => TypeStruct(Some(SingleType(s)))
    case Multiple(xs) => TypeStruct(Some(MultipleType(xs)))
  }

  /** Reading a `TypeStruct` back: an unset field and a struct with no arm set are both
      failures (the second is the explicit `panic!` with its message), never a default. */
  function TypeEnumOf(t: Option<TypeStruct>, field: string, panicMessage: string): (r: Converted<TypeEnum>)
    ensures t.None? ==> r == Err(Absent(field))
    ensures t.Some? && t.value.oneofType.None? ==> r == Err(Panicked(panicMessage))
    ensures r.Ok? <==> t.Some? && t.value.oneofType.Some?
  {
    var ts :- OkOr(t, Absent(field));
    match ts.oneofType
    case Some(SingleType(s)) => Ok(Single(s))
    case Some(MultipleType(xs)) => Ok(Multiple(xs))
    case None => Err(Panicked(panicMessage))
  }

  lemma TypeRoundTrip(t: TypeEnum, field: string, panicMessage: string)
    ensures TypeEnumOf(Some(TypeStructOf(t)), field, panicMessage) == Ok(t)
  {
  }

  // ---------------------------------------------------------------- schema and status

  function SchemaStructOf(s: CredentialSchema): CredentialSchemaStruct {
    CredentialSchemaStruct(ToString(s.id), s.credentialType)
  }

  function SchemaOf(s: CredentialSchemaStruct): (r: Converted<CredentialSchema>)
    ensures r.Ok? <==> IsUrl(s.schemaId)
    ensures r.Ok? ==> ToString(r.value.id) == s.schemaId && r.value.credentialType == s.schemaType
  {
    var id :- UrlOf(s.schemaId);
    Ok(CredentialSchema(id, s.schemaType))
  }

  function SchemaChoiceOf(s: SchemaEnum): (r: CredentialSchemaChoice)
    ensures r.SingleSchema? <==> s.Single?
    ensures s.Multiple? ==> |r.repeatedSchema| == |s.many|
    ensures SchemaIdsAreUrls(r)
  {
    match s
    case Single(one) => SingleSchema(SchemaStructOf(one))
    case Multiple(xs) => MultipleSchema(MapSeq(xs, SchemaStructOf))
  }

  /** Every schema id in the choice is a URL text. */
  predicate SchemaIdsAreUrls(c: CredentialSchemaChoice) {
    match c
    case SingleSchema(s) => IsUrl(s.schemaId)
    case MultipleSchema(xs) => forall i :: 0 <= i < |xs| ==> IsUrl(xs[i].schemaId)
  }

  function SchemaEnumOf(c: Option<CredentialSchemaChoice>): (r: Converted<SchemaEnum>)
    ensures c.None? ==> r == Err(Absent("credential_schema"))
    ensures r.Ok? <==> c.Some? && SchemaIdsAreUrls(c.value)
    ensures r.Ok? ==> (r.value.Single? <==> c.value.SingleSchema?)
    ensures r.Ok? && r.value.Multiple? ==> |r.value.many| == |c.value.repeatedSchema|
  {
    var choice :- OkOr(c, Absent("credential_schema"));
    match choice
    case MultipleSchema(xs) => var schemas :- ConvertAll(xs, SchemaOf); Ok(Multiple(schemas))
    case SingleSchema(s) => var schema :- SchemaOf(s); Ok(Single(schema))
  }

  lemma SchemaEnumRoundTrip(s: SchemaEnum)
    ensures SchemaEnumOf(Some(SchemaChoiceOf(s))) == Ok(s)
  {
    match s
    case Single(one) =>
      ParsePrinted(one.id);
    case Multiple(xs) =>
      forall i | 0 <= i < |xs| ensures SchemaOf(SchemaStructOf(xs[i])) == Ok(xs[i]) {
        ParsePrinted(xs[i].id);
      }
      ConvertAllRoundTrip(xs, SchemaStructOf, SchemaOf);
  }

  function StatusStructOf(s: CredentialStatus): CredentialStatusStruct {
    CredentialStatusStruct(OptionalText(s.id), Some(TypeStructOf(s.statusType)))
  }

  function StatusOf(s: CredentialStatusStruct): (r: Converted<CredentialStatus>)
    ensures s.statusId.Some? && !IsUrl(s.statusId.value) ==> r == Err(UrlRejected(s.statusId.value))
    ensures s.statusType.None? && OptionalUrlOf(s.statusId).Ok? ==> r == Err(Absent("status_type"))
    ensures r.Ok? <==> (s.statusId.Some? ==> IsUrl(s.statusId.value)) && s.statusType.Some? && s.statusType.value.oneofType.Some?
  {
    var id :- OptionalUrlOf(s.statusId);
    var statusType :- TypeEnumOf(s.statusType, "status_type", "Error in credential status");
    Ok(CredentialStatus(id, statusType))
  }

  lemma StatusRoundTrip(s: CredentialStatus)
    ensures StatusOf(StatusStructOf(s)) == Ok(s)
  {
    OptionalUrlRoundTrip(s.id);
  }

  function StatusChoiceOf(s: StatusEnum): (r: CredentialStatusChoice)
    ensures r.SingleStatus? <==> s.Single?
    ensures s.Multiple? ==> |r.repeatedStatus| == |s.many|
    ensures StatusIdsAreUrls(r)
  {
    match s
    case Single(one) => SingleStatus(StatusStructOf(one))
    case Multiple(xs) => MultipleStatus(MapSeq(xs, StatusStructOf))
  }

  /** Every status id present in the choice is a URL text. */
  predicate StatusIdsAreUrls(c: CredentialStatusChoice) {
    match c
    case SingleStatus(s) => s.statusId.Some? ==> IsUrl(s.statusId.value)
    case MultipleStatus(xs) => forall i :: 0 <= i < |xs| ==> (xs[i].statusId.Some? ==> IsUrl(xs[i].statusId.value))
  }

  function StatusEnumOf(c: CredentialStatusChoice): (r: Converted<StatusEnum>)
    ensures r.Ok? ==> StatusIdsAreUrls(c)
    ensures r.Ok? ==> (r.value.Single? <==> c.SingleStatus?)
    ensures r.Ok? && r.value.Multiple? ==> |r.value.many| == |c.repeatedStatus|
  {
    match c
    case MultipleStatus(xs) => var statuses :- ConvertAll(xs, StatusOf); Ok(Multiple(statuses))
    case SingleStatus(s) => var status :- StatusOf(s); Ok(Single(status))
  }

  lemma StatusEnumRoundTrip(s: StatusEnum)
    ensures StatusEnumOf(StatusChoiceOf(s)) == Ok(s)
  {
    match s
    case Single(one) =>
      StatusRoundTrip(one);
    case Multiple(xs) =>
      forall i | 0 <= i < |xs| ensures StatusOf(StatusStructOf(xs[i])) == Ok(xs[i]) {
        StatusRoundTrip(xs[i]);
      }
      ConvertAllRoundTrip(xs, StatusStructOf, StatusOf);
  }

  function OptionalStatusChoice(s: Option<StatusEnum>): (r: Option<CredentialStatusChoice>)
    ensures r.None? <==> s.None?
  {
    match s
    case None => None
    case Some(s) => Some(StatusChoiceOf(s))
  }

  function OptionalStatusEnum(c: Option<CredentialStatusChoice>): (r: Converted<Option<StatusEnum>>)
    ensures r.Ok? ==> (r.value.None? <==> c.None?)
    ensures r.Ok? && c.Some? ==> StatusIdsAreUrls(c.value)
  {
    match c
    case None => Ok(None)
    case Some(c) => var s :- StatusEnumOf(c); Ok(Some(s))
  }

  // ---------------------------------------------------------------- subject and proof

  /** The subject travels as its JSON text, prost-encoded, inside an `Any` whose type URL is
      the literal "Value.to_string()". */
  function SubjectAny(c: Codecs, subject: Json): (r: Any)
    ensures r.typeUrl == "Value.to_string()"
  {
    Any("Value.to_string()", c.strings.encode(c.json.toText(subject)))
  }

  /** The subject's JSON text, out of the `Any`'s bytes. */
  function SubjectOf(c: Codecs, a: Option<Any>): (r: Converted<Json>)
    ensures a.None? ==> r == Err(Absent("credential_subject"))
  {
    var any :- OkOr(a, Absent("credential_subject"));
    var text :- OkOr(c.strings.decode(any.value), SubjectUndecodable);
    OkOr(c.json.fromText(text), SubjectUndecodable)
  }

  /** Reading the subject back ignores the type URL. */
  lemma SubjectIgnoresTypeUrl(c: Codecs, a: Any, typeUrl: string)
    ensures SubjectOf(c, Some(a)) == SubjectOf(c, Some(a.(typeUrl := typeUrl)))
  {
  }

  lemma SubjectRoundTrip(c: Codecs, subject: Json)
    requires Lawful(c)
    ensures SubjectOf(c, Some(SubjectAny(c, subject))) == Ok(subject)
  {
    assert c.strings.decode(c.strings.encode(c.json.toText(subject))) == Some(c.json.toText(subject));
    assert c.json.fromText(c.json.toText(subject)) == Some(subject);
  }

  function ProofMessageOf(p: JwsProof): (r: ProofMessage)
    ensures r.created.Some?
    ensures ProofOf(r) == Ok(p)
  {
    ProofMessage(p.proofType, p.jws, p.proofPurpose, Some(TimestampOf(p.created)))
  }

  function ProofOf(m: ProofMessage): (r: Converted<JwsProof>)
    ensures m.created.None? ==> r == Err(Absent("created"))
    ensures r.Ok? ==> r.value.proofType == m.proofType && r.value.jws == m.jws && r.value.proofPurpose == m.proofPurpose
  {
    var ts :- OkOr(m.created, Absent("created"));
    var created :- DateTimeOf(ts);
    Ok(JwsProof(m.proofType, m.jws, m.proofPurpose, created))
  }

  function OptionalProofMessage(p: Option<JwsProof>): (r: Option<ProofMessage>)
    ensures r.None? <==> p.None?
  {
    match p
    case None => None
    case Some(p) => Some(ProofMessageOf(p))
  }

  function OptionalProof(m: Option<ProofMessage>): (r: Converted<Option<JwsProof>>)
    ensures r.Ok? ==> (r.value.None? <==> m.None?)
    ensures m.Some? ==> (r.Ok? <==> ProofOf(m.value).Ok?)
    ensures r.Ok? && m.Some? ==> r.value.value == ProofOf(m.value).value
  {
    match m
    case None => Ok(None)
    case Some(m) => var p :- ProofOf(m); Ok(Some(p))
  }

  lemma ProofRoundTrip(p: Option<JwsProof>)
    ensures OptionalProof(OptionalProofMessage(p)) == Ok(p)
  {
  }

  // ---------------------------------------------------------------- credentials

  /** `From<native::VerifiableCredential> for VerifiableCredential`. */
  function CredentialMessageOf(c: Codecs, vc: VerifiableCredential<JwsProof>): (r: CredentialMessage)
    ensures |r.context| == |vc.context| && forall i :: 0 <= i < |vc.context| ==> r.context[i] == ToString(vc.context[i])
    ensures r.vcId.None? <==> vc.id.None?
    ensures r.validFrom.None? <==> vc.validFrom.None?
    ensures r.validUntil.None? <==> vc.validUntil.None?
    ensures r.credentialStatus.None? <==> vc.credentialStatus.None?
    ensures r.proof.None? <==> vc.proof.None?
    ensures r.vcType.Some? && r.credentialSchema.Some? && r.credentialSubject.Some?
    ensures r.issuer == ToString(vc.issuer) && r.name == vc.name && r.description == vc.description
  {
    CredentialMessage(
      MapSeq(vc.context, ToString),
      OptionalText(vc.id),
      Some(TypeStructOf(vc.vcType)),
      vc.name,
      vc.description,
      ToString(vc.issuer),
      OptionalTimestamp(vc.validFrom),
      OptionalTimestamp(vc.validUntil),
      OptionalStatusChoice(vc.credentialStatus),
      Some(SchemaChoiceOf(vc.credentialSchema)),
      Some(SubjectAny(c, vc.credentialSubject)),
      OptionalProofMessage(vc.proof))
  }

  /** `From<VerifiableCredential> for native::VerifiableCredential`, with each conversion
      in the order the source performs it. */
  function CredentialOf(c: Codecs, m: CredentialMessage): (r: Converted<VerifiableCredential<JwsProof>>)
    ensures r.Ok? ==> |r.value.context| == |m.context|
    ensures r.Ok? ==> r.value.name == m.name && r.value.description == m.description
    ensures r.Ok? ==> ToString(r.value.issuer) == m.issuer
    ensures r.Ok? ==> forall i :: 0 <= i < |m.context| ==> ToString(r.value.context[i]) == m.context[i]
    ensures r.Ok? ==> (r.value.id.Some? <==> m.vcId.Some?) && (m.vcId.Some? ==> ToString(r.value.id.value) == m.vcId.value)
    ensures r.Ok? ==> m.credentialSchema.Some? && SchemaIdsAreUrls(m.credentialSchema.value)
    ensures r.Ok? && m.credentialStatus.Some? ==> StatusIdsAreUrls(m.credentialStatus.value)
  {
    var context :- ConvertAll(m.context, UrlOf);
    var schema :- SchemaEnumOf(m.credentialSchema);
    var status :- OptionalStatusEnum(m.credentialStatus);
    var subject :- SubjectOf(c, m.credentialSubject);
    var validFrom :- OptionalDateTime(m.validFrom);
    var validUntil :- OptionalDateTime(m.validUntil);
    var proof :- OptionalProof(m.proof);
    var vcType :- TypeEnumOf(m.vcType, "vc_type", "Error in vc type");
    var id :- OptionalUrlOf(m.vcId);
    var issuer :- UrlOf(m.issuer);
    Ok(VerifiableCredential(context, id, vcType, m.name, m.description, issuer, validFrom, validUntil,
                            status, schema, subject, proof))
  }

  /** The named converters, as values for `ConvertAll` and `MapSeq`. */
  function MessageOfCredential(c: Codecs): VerifiableCredential<JwsProof> -> CredentialMessage {
    (vc: VerifiableCredential<JwsProof>) => CredentialMessageOf(c, vc)
  }

  function CredentialOfMessage(c: Codecs): CredentialMessage -> Converted<VerifiableCredential<JwsProof>> {
    (m: CredentialMessage) => CredentialOf(c, m)
  }

  lemma ContextRoundTrip(context: seq<Url>)
    ensures ConvertAll(MapSeq(context, ToString), UrlOf) == Ok(context)
  {
    forall i | 0 <= i < |context| ensures UrlOf(ToString(context[i])) == Ok(context[i]) {
      ParsePrinted(context[i]);
    }
    ConvertAllRoundTrip(context, ToString, UrlOf);
  }

  /** `CredentialOf` when every field converts. */
  lemma CredentialOfParts(c: Codecs, m: CredentialMessage, vc: VerifiableCredential<JwsProof>)
    requires ConvertAll(m.context, UrlOf) == Ok(vc.context)
    requires SchemaEnumOf(m.credentialSchema) == Ok(vc.credentialSchema)
    requires OptionalStatusEnum(m.credentialStatus) == Ok(vc.credentialStatus)
    requires SubjectOf(c, m.credentialSubject) == Ok(vc.credentialSubject)
    requires OptionalDateTime(m.validFrom) == Ok(vc.validFrom)
    requires OptionalDateTime(m.validUntil) == Ok(vc.validUntil)
    requires OptionalProof(m.proof) == Ok(vc.proof)
    requires TypeEnumOf(m.vcType, "vc_type", "Error in vc type") == Ok(vc.vcType)
    requires OptionalUrlOf(m.vcId) == Ok(vc.id)
    requires UrlOf(m.issuer) == Ok(vc.issuer)
    requires m.name == vc.name && m.description == vc.description
    ensures CredentialOf(c, m) == Ok(vc)
  {
  }

  lemma OptionalDateRoundTrip(t: Option<DateTime>)
    ensures OptionalDateTime(OptionalTimestamp(t)) == Ok(t)
  {
  }

  lemma OptionalStatusRoundTrip(s: Option<StatusEnum>)
    ensures OptionalStatusEnum(OptionalStatusChoice(s)) == Ok(s)
  {
    if s.Some? {
      StatusEnumRoundTrip(s.value);
    }
  }

  /** A credential survives the trip to the wire and back, field for field. */
  lemma CredentialRoundTrip(c: Codecs, vc: VerifiableCredential<JwsProof>)
    requires Lawful(c)
    ensures CredentialOf(c, CredentialMessageOf(c, vc)) == Ok(vc)
  {
    ContextRoundTrip(vc.context);
    SchemaEnumRoundTrip(vc.credentialSchema);
    OptionalStatusRoundTrip(vc.credentialStatus);
    SubjectRoundTrip(c, vc.credentialSubject);
    OptionalDateRoundTrip(vc.validFrom);
    OptionalDateRoundTrip(vc.validUntil);
    ProofRoundTrip(vc.proof);
    TypeRoundTrip(vc.vcType, "vc_type", "Error in vc type");
    OptionalUrlRoundTrip(vc.id);
    ParsePrinted(vc.issuer);
    CredentialOfParts(c, CredentialMessageOf(c, vc), vc);
  }

  /** A message missing its type, schema or subject never converts back. */
  lemma MissingPartsFail(c: Codecs, m: CredentialMessage)
    requires m.vcType.None? || m.credentialSchema.None? || m.credentialSubject.None?
    ensures CredentialOf(c, m).Err?
  {
  }

  /** Text that is not a URL, wherever the message carries one (a context entry, the id, the
      issuer, a schema id or a status id), makes the conversion fail. */
  lemma MalformedUrlFails(c: Codecs, m: CredentialMessage, i: nat)
    requires (i < |m.context| && !IsUrl(m.context[i])) || (m.vcId.Some? && !IsUrl(m.vcId.value)) ||
             !IsUrl(m.issuer) || (m.credentialSchema.Some? && !SchemaIdsAreUrls(m.credentialSchema.value)) ||
             (m.credentialStatus.Some? && !StatusIdsAreUrls(m.credentialStatus.value))
    ensures CredentialOf(c, m).Err?
  {
  }

  // ---------------------------------------------------------------- presentations

  function CredentialChoiceOf(c: Codecs, vcs: OneOrMany<VerifiableCredential<JwsProof>>): (r: CredentialChoice)
    ensures r.SingleVc? <==> vcs.Single?
    ensures vcs.Multiple? ==> |r.repeatedVc| == |vcs.many|
  {
    match vcs
    case Single(vc) => SingleVc(CredentialMessageOf(c, vc))
    case Multiple(xs) => MultipleVc(MapSeq(xs, MessageOfCredential(c)))
  }

  function CredentialsOf(c: Codecs, choice: Option<CredentialChoice>)
    : (r: Converted<OneOrMany<VerifiableCredential<JwsProof>>>)
    ensures choice.None? ==> r == Err(Absent("verifiable_credential"))
    ensures r.Ok? ==> (r.value.Single? <==> choice.value.SingleVc?)
    ensures r.Ok? && r.value.Multiple? ==> |r.value.many| == |choice.value.repeatedVc|
  {
    var ch :- OkOr(choice, Absent("verifiable_credential"));
    match ch
    case SingleVc(m) => var vc :- CredentialOf(c, m); Ok(Single(vc))
    case MultipleVc(ms) => var vcs :- ConvertAll(ms, CredentialOfMessage(c)); Ok(Multiple(vcs))
  }

  lemma CredentialsRoundTrip(c: Codecs, vcs: OneOrMany<VerifiableCredential<JwsProof>>)
    requires Lawful(c)
    ensures CredentialsOf(c, Some(CredentialChoiceOf(c, vcs))) == Ok(vcs)
  {
    match vcs
    case Single(vc) =>
      CredentialRoundTrip(c, vc);
    case Multiple(xs) =>
      forall i | 0 <= i < |xs| ensures CredentialOfMessage(c)(MessageOfCredential(c)(xs[i])) == Ok(xs[i]) {
        CredentialRoundTrip(c, xs[i]);
      }
      ConvertAllRoundTrip(xs, MessageOfCredential(c), CredentialOfMessage(c));
  }

  /** `From<native::VerifiablePresentation> for VerifiablePresentation`. */
  function PresentationMessageOf(c: Codecs, vp: VerifiablePresentation<JwsProof>): (r: PresentationMessage)
    ensures r.vpId.None? <==> vp.id.None?
    ensures r.holder.None? <==> vp.holder.None?
    ensures r.proof.None? <==> vp.proof.None?
    ensures r.vpType.Some? && r.verifiableCredential.Some?
  {
    PresentationMessage(OptionalText(vp.id), Some(TypeStructOf(vp.vpType)),
                        Some(CredentialChoiceOf(c, vp.verifiableCredential)),
                        OptionalText(vp.holder), OptionalProofMessage(vp.proof))
  }

  /** `From<VerifiablePresentation> for native::VerifiablePresentation`. */
  function PresentationOf(c: Codecs, m: PresentationMessage): (r: Converted<VerifiablePresentation<JwsProof>>)
    ensures OptionalUrlOf(m.vpId).Ok? && m.vpType.None? ==> r == Err(Absent("vp_type"))
    ensures OptionalUrlOf(m.vpId).Ok? && m.vpType.Some? && m.vpType.value.oneofType.None? ==>
              r == Err(Panicked("Error in presentation type"))
    ensures m.verifiableCredential.None? ==> r.Err?
    ensures m.vpId.Some? && !IsUrl(m.vpId.value) ==> r == Err(UrlRejected(m.vpId.value))
    ensures r.Ok? ==> (r.value.id.Some? <==> m.vpId.Some?) && (m.vpId.Some? ==> ToString(r.value.id.value) == m.vpId.value)
    ensures r.Ok? ==> (r.value.holder.Some? <==> m.holder.Some?) && (m.holder.Some? ==> ToString(r.value.holder.value) == m.holder.value)
  {
    var id :- OptionalUrlOf(m.vpId);
    var vpType :- TypeEnumOf(m.vpType, "vp_type", "Error in presentation type");
    var vcs :- CredentialsOf(c, m.verifiableCredential);
    var holder :- OptionalUrlOf(m.holder);
    var proof :- OptionalProof(m.proof);
    Ok(VerifiablePresentation(id, vpType, vcs, holder, proof))
  }

  /** A `vp_id` or `holder` that is not a URL makes the conversion fail. */
  lemma MalformedPresentationUrlFails(c: Codecs, m: PresentationMessage)
    requires (m.vpId.Some? && !IsUrl(m.vpId.value)) || (m.holder.Some? && !IsUrl(m.holder.value))
    ensures PresentationOf(c, m).Err?
  {
  }

  lemma PresentationRoundTrip(c: Codecs, vp: VerifiablePresentation<JwsProof>)
    requires Lawful(c)
    ensures PresentationOf(c, PresentationMessageOf(c, vp)) == Ok(vp)
  {
    OptionalUrlRoundTrip(vp.id);
    CredentialsRoundTrip(c, vp.verifiableCredential);
    OptionalUrlRoundTrip(vp.holder);
    ProofRoundTrip(vp.proof);
  }
}
