/** What the serde derives of native.rs:13-103 make of the data model: `to_value` (every
    field written, `None` as `null`, an untagged enum as its inner value) and `from_value`.
    Decoding follows the attributes: a struct is read from an object or, positionally, from
    an array of exactly its field count; `deny_unknown_fields` refuses any other key (all
    structs but `Proof`); a missing `Option` field is `None`; an untagged enum tries
    `Single` first and `Multiple` only when `Single` fails. */
module Serde {
  import opened Base
  import opened Json
  import opened Urls
  import opened Primitives
  import opened Model

  type Decoded<T> = Result<T, DecodeFailure>

  /** `dec` undoes `enc` on every value. */
  ghost predicate Inverse<T(!new)>(enc: T -> Json, dec: Json -> Decoded<T>) {
    forall x :: dec(enc(x)) == Ok(x)
  }

  // ---------------------------------------------------------------- leaves

  function DecodeString(j: Json): (r: Decoded<string>)
    ensures r.Ok? <==> j.String?
  {
    if j.String? then Ok(j.s) else Err(InvalidType("a string"))
  }

  function EncodeText(s: string): Json { String(s) }

  function EncodeUrl(u: Url): Json { String(ToString(u)) }

  /** A `Url` is read from a string that `Url::parse` accepts. */
  function DecodeUrl(j: Json): (r: Decoded<Url>)
    ensures r.Ok? <==> j.String? && IsUrl(j.s)
    ensures r.Ok? ==> r.value == j.s
  {
    match j
    case String(s) => if IsUrl(s) then Ok(s) else Err(InvalidUrl(s))
    case _ => Err(InvalidType("a URL string"))
  }

  function EncodeDate(dates: DateText, t: DateTime): Json { String(dates.toText(t)) }

  function DecodeDate(dates: DateText, j: Json): (r: Decoded<DateTime>)
    ensures r.Ok? ==> j.String? && dates.fromText(j.s) == Some(r.value)
  {
    match j
    case String(s) => (match dates.fromText(s)
                       case Some(t) => Ok(t)
                       case None => Err(InvalidType("an RFC 3339 date-time")))
    case _ => Err(InvalidType("an RFC 3339 date-time"))
  }

  function EncodeByte(b: byte): Json { Number(b as int) }

  function DecodeByte(j: Json): (r: Decoded<byte>)
    ensures r.Ok? <==> j.Number? && 0 <= j.n < 256
  {
    if j.Number? && 0 <= j.n < 256 then Ok(j.n as byte) else Err(InvalidType("u8"))
  }

  function EncodeSeq<T>(xs: seq<T>, enc: T -> Json): Json { Array(MapSeq(xs, enc)) }

  /** Decodes every element in order; the first failure is the result. */
  function DecodeEach<T>(items: seq<Json>, dec: Json -> Decoded<T>): (r: Decoded<seq<T>>)
    ensures r.Ok? ==> |r.value| == |items|
    ensures r.Ok? <==> forall i :: 0 <= i < |items| ==> dec(items[i]).Ok?
  {
    if items == [] then Ok([])
    else
      var head :- dec(items[0]);
      var tail :- DecodeEach(items[1..], dec);
      Ok([head] + tail)
  }

  function DecodeSeq<T>(j: Json, dec: Json -> Decoded<T>): (r: Decoded<seq<T>>)
    ensures r.Ok? ==> j.Array?
  {
    if j.Array? then DecodeEach(j.items, dec) else Err(InvalidType("a sequence"))
  }

  function EncodeOption<T>(o: Option<T>, enc: T -> Json): Json {
    match o
    case None => Null
    case Some(x) => enc(x)
  }

  function EncodeOneOrMany<T>(v: OneOrMany<T>, enc: T -> Json): Json {
    match v
    case Single(x) => enc(x)
    case Multiple(xs) => EncodeSeq(xs, enc)
  }

  /** `#[serde(untagged)]` over `Single(T)` and `Multiple(Vec<T>)`: the first arm that
      decodes wins. */
  function DecodeUntagged<T>(j: Json, dec: Json -> Decoded<T>, enumName: string): (r: Decoded<OneOrMany<T>>)
    ensures dec(j).Ok? ==> r == Ok(Single(dec(j).value))
    ensures dec(j).Err? && DecodeSeq(j, dec).Ok? ==> r == Ok(Multiple(DecodeSeq(j, dec).value))
    ensures dec(j).Err? && DecodeSeq(j, dec).Err? ==> r == Err(NoVariantMatched(enumName))
  {
    match dec(j)
    case Ok(x) => Ok(Single(x))
    case Err(_) =>
      match DecodeSeq(j, dec)
      case Ok(xs) => Ok(Multiple(xs))
      case Err(_) => Err(NoVariantMatched(enumName))
  }

  // ---------------------------------------------------------------- structs

  /** No name occurs twice. */
  predicate Distinct(names: seq<string>) {
    forall i, j :: 0 <= i < j < |names| ==> names[i] != names[j]
  }

  /** The object `to_value` writes for a struct: each field name bound to its value. */
  function Fields(names: seq<string>, values: seq<Json>): map<string, Json>
    requires |names| == |values|
  {
    if names == [] then map[] else Fields(names[1..], values[1..])[names[0] := values[0]]
  }

  /** The keys of the object are the field names. */
  lemma {:induction false} FieldsKeys(names: seq<string>, values: seq<Json>)
    requires |names| == |values|
    ensures forall k :: k in Fields(names, values) <==> k in names
  {
    if names != [] {
      FieldsKeys(names[1..], values[1..]);
      assert names == [names[0]] + names[1..];
    }
  }

  /** With distinct names, field `i` is bound to value `i`. */
  lemma {:induction false} FieldsLookup(names: seq<string>, values: seq<Json>, i: nat)
    requires |names| == |values| && i < |names| && Distinct(names)
    ensures names[i] in Fields(names, values) && Fields(names, values)[names[i]] == values[i]
  {
    if i > 0 {
      assert names[1..][i - 1] == names[i];
      assert Distinct(names[1..]) by {
        forall a, b | 0 <= a < b < |names| - 1 ensures names[1..][a] != names[1..][b] {
          assert names[1..][a] == names[a + 1] && names[1..][b] == names[b + 1];
        }
      }
      FieldsLookup(names[1..], values[1..], i - 1);
      assert values[1..][i - 1] == values[i];
      assert names[0] != names[i];
    }
  }

  datatype Slot = Absent | Present(json: Json)

  /** Whether `v` can hold a struct with these fields at all. */
  function Shape(v: Json, names: seq<string>, denyUnknown: bool): (r: Decoded<Unit>)
    ensures r.Ok? <==> (v.Object? && (denyUnknown ==> forall k :: k in v.fields ==> k in names))
                       || (v.Array? && |v.items| == |names|)
  {
    match v
    case Object(m) =>
      if denyUnknown && !(forall k :: k in m ==> k in names) then Err(UnknownField) else Ok(Unit)
    case Array(items) => if |items| == |names| then Ok(Unit) else Err(InvalidLength)
    case _ => Err(InvalidType("a struct"))
  }

  /** The value standing for field `i`: looked up by name in an object, by position in
      an array. */
  function SlotOf(v: Json, names: seq<string>, i: nat): Slot
    requires i < |names|
    requires v.Object? || (v.Array? && |v.items| == |names|)
  {
    if v.Array? then Present(v.items[i])
    else if names[i] in v.fields then Present(v.fields[names[i]])
    else Absent
  }

  function Required<T>(s: Slot, field: string, dec: Json -> Decoded<T>): Decoded<T> {
    match s
    case Absent => Err(MissingField(field))
    case Present(j) => dec(j)
  }

  /** An `Option<T>` field: absent or `null` is `None`. */
  function Optional<T>(s: Slot, dec: Json -> Decoded<T>): (r: Decoded<Option<T>>)
    ensures s == Absent || s == Present(Null) ==> r == Ok(None)
  {
    match s
    case Absent => Ok(None)
    case Present(Null) => Ok(None)
    case Present(j) => (match dec(j) case Ok(x) => Ok(Some(x)) case Err(e) => Err(e))
  }

  // ---------------------------------------------------------------- the model's types

  function EncodeType(t: TypeEnum): Json { EncodeOneOrMany(t, EncodeText) }

  function DecodeType(j: Json): Decoded<TypeEnum> { DecodeUntagged(j, DecodeString, "TypeEnum") }

  const StatusFields := ["id", "type"]

  /** The values `to_value` writes for the fields, in declaration order. */
  function StatusValues(s: CredentialStatus): (r: seq<Json>)
    ensures |r| == |StatusFields|
  {
    [EncodeOption(s.id, EncodeUrl), EncodeType(s.statusType)]
  }

  function EncodeStatus(s: CredentialStatus): (r: Json)
    ensures r.Object? && forall k :: k in r.fields <==> k in StatusFields
  {
    FieldsKeys(StatusFields, StatusValues(s));
    Object(Fields(StatusFields, StatusValues(s)))
  }

  function DecodeStatus(j: Json): (r: Decoded<CredentialStatus>)
    ensures r.Ok? ==> Shape(j, StatusFields, true).Ok?
    ensures r.Ok? && j.Object? ==> "type" in j.fields
  {
    var _ :- Shape(j, StatusFields, true);
    var id :- Optional(SlotOf(j, StatusFields, 0), DecodeUrl);
    var statusType :- Required(SlotOf(j, StatusFields, 1), "type", DecodeType);
    Ok(CredentialStatus(id, statusType))
  }

  function EncodeStatusEnum(s: StatusEnum): Json { EncodeOneOrMany(s, EncodeStatus) }

  function DecodeStatusEnum(j: Json): Decoded<StatusEnum> {
    DecodeUntagged(j, DecodeStatus, "StatusEnum")
  }

  const SchemaFields := ["id", "type"]

  function SchemaValues(s: CredentialSchema): (r: seq<Json>)
    ensures |r| == |SchemaFields|
  {
    [EncodeUrl(s.id), String(s.credentialType)]
  }

  function EncodeSchema(s: CredentialSchema): (r: Json)
    ensures r.Object? && forall k :: k in r.fields <==> k in SchemaFields
  {
    FieldsKeys(SchemaFields, SchemaValues(s));
    Object(Fields(SchemaFields, SchemaValues(s)))
  }

  function DecodeSchema(j: Json): (r: Decoded<CredentialSchema>)
    ensures r.Ok? ==> Shape(j, SchemaFields, true).Ok?
    ensures r.Ok? && j.Object? ==> "id" in j.fields && "type" in j.fields
  {
    var _ :- Shape(j, SchemaFields, true);
    var id :- Required(SlotOf(j, SchemaFields, 0), "id", DecodeUrl);
    var credentialType :- Required(SlotOf(j, SchemaFields, 1), "type", DecodeString);
    Ok(CredentialSchema(id, credentialType))
  }

  function EncodeSchemaEnum(s: SchemaEnum): Json { EncodeOneOrMany(s, EncodeSchema) }

  function DecodeSchemaEnum(j: Json): Decoded<SchemaEnum> {
    DecodeUntagged(j, DecodeSchema, "SchemaEnum")
  }

  function DecodeContext(j: Json): Decoded<seq<Url>> { DecodeSeq(j, DecodeUrl) }

  function DecodeSubject(j: Json): Decoded<Json> { Ok(j) }

  const CredentialFields := [
    "@context", "id", "type", "name", "description", "issuer", "validFrom", "validUntil",
    "credentialStatus", "credentialSchema", "credentialSubject", "proof"]

  function CredentialValues<P>(vc: VerifiableCredential<P>, dates: DateText, proofJson: P -> Json): (r: seq<Json>)
    ensures |r| == |CredentialFields|
  {
    [EncodeSeq(vc.context, EncodeUrl),
     EncodeOption(vc.id, EncodeUrl),
      EncodeType(vc.vcType),
      EncodeOption(vc.name, EncodeText),
      EncodeOption(vc.description, EncodeText),
      EncodeUrl(vc.issuer),
      EncodeOption(vc.validFrom, (t: DateTime) => EncodeDate(dates, t)),
      EncodeOption(vc.validUntil, (t: DateTime) => EncodeDate(dates, t)),
      EncodeOption(vc.credentialStatus, EncodeStatusEnum),
      EncodeSchemaEnum(vc.credentialSchema),
      vc.credentialSubject,
      EncodeOption(vc.proof, proofJson)]
  }

  function EncodeCredential<P>(vc: VerifiableCredential<P>, dates: DateText, proofJson: P -> Json): (r: Json)
    ensures r.Object? && forall k :: k in r.fields <==> k in CredentialFields
  {
    FieldsKeys(CredentialFields, CredentialValues(vc, dates, proofJson));
    Object(Fields(CredentialFields, CredentialValues(vc, dates, proofJson)))
  }

  function DecodeCredential<P>(j: Json, dates: DateText, proofOf: Json -> Decoded<P>): (r: Decoded<VerifiableCredential<P>>)
    ensures r.Ok? ==> Shape(j, CredentialFields, true).Ok?
    ensures r.Ok? && j.Object? ==> "@context" in j.fields && "type" in j.fields && "issuer" in j.fields && "credentialSchema" in j.fields && "credentialSubject" in j.fields
    ensures r.Ok? && j.Object? ==> r.value.credentialSubject == j.fields["credentialSubject"]
  {
    var _ :- Shape(j, CredentialFields, true);
    var context :- Required(SlotOf(j, CredentialFields, 0), "@context", DecodeContext);
    var id :- Optional(SlotOf(j, CredentialFields, 1), DecodeUrl);
    var vcType :- Required(SlotOf(j, CredentialFields, 2), "type", DecodeType);
    var name :- Optional(SlotOf(j, CredentialFields, 3), DecodeString);
    var description :- Optional(SlotOf(j, CredentialFields, 4), DecodeString);
    var issuer :- Required(SlotOf(j, CredentialFields, 5), "issuer", DecodeUrl);
    var validFrom :- Optional(SlotOf(j, CredentialFields, 6), (x: Json) => DecodeDate(dates, x));
    var validUntil :- Optional(SlotOf(j, CredentialFields, 7), (x: Json) => DecodeDate(dates, x));
    var status :- Optional(SlotOf(j, CredentialFields, 8), DecodeStatusEnum);
    var schema :- Required(SlotOf(j, CredentialFields, 9), "credentialSchema", DecodeSchemaEnum);
    var subject :- Required(SlotOf(j, CredentialFields, 10), "credentialSubject", DecodeSubject);
    var proof :- Optional(SlotOf(j, CredentialFields, 11), proofOf);
    Ok(VerifiableCredential(context, id, vcType, name, description, issuer, validFrom, validUntil,
                            status, schema, subject, proof))
  }

  /** `VerifiableCredentialEnum`. */
  function EncodeCredentials<P>(vcs: OneOrMany<VerifiableCredential<P>>, dates: DateText, proofJson: P -> Json): Json {
    EncodeOneOrMany(vcs, (vc: VerifiableCredential<P>) => EncodeCredential(vc, dates, proofJson))
  }

  function DecodeCredentials<P>(j: Json, dates: DateText, proofOf: Json -> Decoded<P>): Decoded<OneOrMany<VerifiableCredential<P>>> {
    DecodeUntagged(j, (y: Json) => DecodeCredential(y, dates, proofOf), "VerifiableCredentialEnum")
  }

  function EncodeDocument<P>(d: Document<P>, dates: DateText, proofJson: P -> Json): Json {
    match d
    case Credential(vc) => EncodeCredential(vc, dates, proofJson)
    case Presentation(vp) => EncodePresentation(vp, dates, proofJson)
  }

  const PresentationFields := ["id", "type", "verifiableCredential", "holder", "proof"]

  function PresentationValues<P>(vp: VerifiablePresentation<P>, dates: DateText, proofJson: P -> Json): (r: seq<Json>)
    ensures |r| == |PresentationFields|
  {
    [EncodeOption(vp.id, EncodeUrl),
      EncodeType(vp.vpType),
      EncodeCredentials(vp.verifiableCredential, dates, proofJson),
      EncodeOption(vp.holder, EncodeUrl),
      EncodeOption(vp.proof, proofJson)]
  }

  function EncodePresentation<P>(vp: VerifiablePresentation<P>, dates: DateText, proofJson: P -> Json): (r: Json)
    ensures r.Object? && forall k :: k in r.fields <==> k in PresentationFields
  {
    FieldsKeys(PresentationFields, PresentationValues(vp, dates, proofJson));
    Object(Fields(PresentationFields, PresentationValues(vp, dates, proofJson)))
  }

  function DecodePresentation<P>(j: Json, dates: DateText, proofOf: Json -> Decoded<P>): (r: Decoded<VerifiablePresentation<P>>)
    ensures r.Ok? ==> Shape(j, PresentationFields, true).Ok?
    ensures r.Ok? && j.Object? ==> "type" in j.fields && "verifiableCredential" in j.fields
  {
    var _ :- Shape(j, PresentationFields, true);
    var id :- Optional(SlotOf(j, PresentationFields, 0), DecodeUrl);
    var vpType :- Required(SlotOf(j, PresentationFields, 1), "type", DecodeType);
    var vcs :- Required(SlotOf(j, PresentationFields, 2), "verifiableCredential",
                        (x: Json) => DecodeCredentials(x, dates, proofOf));
    var holder :- Optional(SlotOf(j, PresentationFields, 3), DecodeUrl);
    var proof :- Optional(SlotOf(j, PresentationFields, 4), proofOf);
    Ok(VerifiablePresentation(id, vpType, vcs, holder, proof))
  }

  // ---------------------------------------------------------------- the proof shapes

  const ProofFields := ["type", "created", "cryptosuite", "proofPurpose", "proofValue"]

  function RawProofValues(dates: DateText, p: RawProof): (r: seq<Json>)
    ensures |r| == |ProofFields|
  {
    [String(p.proofType), EncodeDate(dates, p.created), String(p.cryptosuite),
      String(p.proofPurpose), EncodeSeq(p.proofValue, EncodeByte)]
  }

  function EncodeRawProof(dates: DateText, p: RawProof): (r: Json)
    ensures r.Object? && forall k :: k in r.fields <==> k in ProofFields
  {
    FieldsKeys(ProofFields, RawProofValues(dates, p));
    Object(Fields(ProofFields, RawProofValues(dates, p)))
  }

  /** `Proof` has no `deny_unknown_fields`: keys other than its own are skipped. */
  function DecodeRawProof(dates: DateText, j: Json): (r: Decoded<RawProof>)
    ensures r.Ok? ==> Shape(j, ProofFields, false).Ok?
    ensures r.Ok? && j.Object? ==> "type" in j.fields && "created" in j.fields && "cryptosuite" in j.fields && "proofPurpose" in j.fields && "proofValue" in j.fields
  {
    var _ :- Shape(j, ProofFields, false);
    var proofType :- Required(SlotOf(j, ProofFields, 0), "type", DecodeString);
    var created :- Required(SlotOf(j, ProofFields, 1), "created", (x: Json) => DecodeDate(dates, x));
    var cryptosuite :- Required(SlotOf(j, ProofFields, 2), "cryptosuite", DecodeString);
    var purpose :- Required(SlotOf(j, ProofFields, 3), "proofPurpose", DecodeString);
    var value :- Required(SlotOf(j, ProofFields, 4), "proofValue", (x: Json) => DecodeSeq(x, DecodeByte));
    Ok(RawProof(proofType, created, cryptosuite, purpose, value))
  }

  function EncodedProofValues(dates: DateText, p: EncodedProof): (r: seq<Json>)
    ensures |r| == |ProofFields|
  {
    [String(p.proofType), EncodeDate(dates, p.created), String(p.cryptosuite),
      String(p.proofPurpose), String(p.proofValue)]
  }

  function EncodeEncodedProof(dates: DateText, p: EncodedProof): (r: Json)
    ensures r.Object? && forall k :: k in r.fields <==> k in ProofFields
  {
    FieldsKeys(ProofFields, EncodedProofValues(dates, p));
    Object(Fields(ProofFields, EncodedProofValues(dates, p)))
  }

  function DecodeEncodedProof(dates: DateText, j: Json): (r: Decoded<EncodedProof>)
    ensures r.Ok? ==> Shape(j, ProofFields, false).Ok?
    ensures r.Ok? && j.Object? ==> "type" in j.fields && "created" in j.fields && "cryptosuite" in j.fields && "proofPurpose" in j.fields && "proofValue" in j.fields
    ensures r.Ok? && j.Object? ==> j.fields["proofValue"].String? && r.value.proofValue == j.fields["proofValue"].s
  {
    var _ :- Shape(j, ProofFields, false);
    var proofType :- Required(SlotOf(j, ProofFields, 0), "type", DecodeString);
    var created :- Required(SlotOf(j, ProofFields, 1), "created", (x: Json) => DecodeDate(dates, x));
    var cryptosuite :- Required(SlotOf(j, ProofFields, 2), "cryptosuite", DecodeString);
    var purpose :- Required(SlotOf(j, ProofFields, 3), "proofPurpose", DecodeString);
    var value :- Required(SlotOf(j, ProofFields, 4), "proofValue", DecodeString);
    Ok(EncodedProof(proofType, created, cryptosuite, purpose, value))
  }

  const JwsProofFields := ["type", "jws", "proofPurpose", "created"]

  function JwsProofValues(dates: DateText, p: JwsProof): (r: seq<Json>)
    ensures |r| == |JwsProofFields|
  {
    [String(p.proofType), String(p.jws), String(p.proofPurpose), EncodeDate(dates, p.created)]
  }

  function EncodeJwsProof(dates: DateText, p: JwsProof): (r: Json)
    ensures r.Object? && forall k :: k in r.fields <==> k in JwsProofFields
  {
    FieldsKeys(JwsProofFields, JwsProofValues(dates, p));
    Object(Fields(JwsProofFields, JwsProofValues(dates, p)))
  }

  function DecodeJwsProof(dates: DateText, j: Json): (r: Decoded<JwsProof>)
    ensures r.Ok? ==> Shape(j, JwsProofFields, false).Ok?
    ensures r.Ok? && j.Object? ==> "type" in j.fields && "jws" in j.fields && "proofPurpose" in j.fields && "created" in j.fields
    ensures r.Ok? && j.Object? ==> j.fields["jws"].String? && r.value.jws == j.fields["jws"].s
  {
    var _ :- Shape(j, JwsProofFields, false);
    var proofType :- Required(SlotOf(j, JwsProofFields, 0), "type", DecodeString);
    var jws :- Required(SlotOf(j, JwsProofFields, 1), "jws", DecodeString);
    var purpose :- Required(SlotOf(j, JwsProofFields, 2), "proofPurpose", DecodeString);
    var created :- Required(SlotOf(j, JwsProofFields, 3), "created", (x: Json) => DecodeDate(dates, x));
    Ok(JwsProof(proofType, jws, purpose, created))
  }

  // ---------------------------------------------------------------- the codecs as values

  function RawProofJson(dates: DateText): RawProof -> Json { (p: RawProof) => EncodeRawProof(dates, p) }

  function RawProofOf(dates: DateText): Json -> Decoded<RawProof> { (j: Json) => DecodeRawProof(dates, j) }

  function EncodedProofJson(dates: DateText): EncodedProof -> Json {
    (p: EncodedProof) => EncodeEncodedProof(dates, p)
  }

  function EncodedProofOf(dates: DateText): Json -> Decoded<EncodedProof> {
    (j: Json) => DecodeEncodedProof(dates, j)
  }

  function JwsProofJson(dates: DateText): JwsProof -> Json { (p: JwsProof) => EncodeJwsProof(dates, p) }

  function JwsProofOf(dates: DateText): Json -> Decoded<JwsProof> { (j: Json) => DecodeJwsProof(dates, j) }
}
