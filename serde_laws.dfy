/** What the derived serde code promises about the data model: `from_value(to_value(x))`
    gives `x` back for every credential, presentation and proof; unknown keys are refused
    except inside a proof; and the untagged enums really do prefer `Single`, which makes a
    two-element array a credential schema rather than a list of them. */
module SerdeLaws {
  import opened Base
  import opened Json
  import opened Urls
  import opened Primitives
  import opened Model
  import opened Serde

  /** A proof encoding is usable inside an `Option` field when it round-trips and never
      writes `null` (which would read back as `None`). */
  ghost predicate ProofCodec<P(!new)>(enc: P -> Json, dec: Json -> Decoded<P>) {
    forall p :: dec(enc(p)) == Ok(p) && enc(p) != Null
  }

  function Items<T>(v: OneOrMany<T>): seq<T> {
    match v
    case Single(x) => [x]
    case Multiple(xs) => xs
  }

  // ---------------------------------------------------------------- generic round trips

  lemma {:induction false} EachRoundTrip<T>(xs: seq<T>, enc: T -> Json, dec: Json -> Decoded<T>)
    requires forall i :: 0 <= i < |xs| ==> dec(enc(xs[i])) == Ok(xs[i])
    ensures DecodeEach(MapSeq(xs, enc), dec) == Ok(xs)
  {
    if xs != [] {
      assert MapSeq(xs, enc)[1..] == MapSeq(xs[1..], enc);
      EachRoundTrip(xs[1..], enc, dec);
      assert [xs[0]] + xs[1..] == xs;
    }
  }

  /** A `Vec<T>` round-trips when each of its elements does. */
  lemma SeqRoundTrip<T>(xs: seq<T>, enc: T -> Json, dec: Json -> Decoded<T>)
    requires forall i :: 0 <= i < |xs| ==> dec(enc(xs[i])) == Ok(xs[i])
    ensures DecodeSeq(EncodeSeq(xs, enc), dec) == Ok(xs)
  {
    EachRoundTrip(xs, enc, dec);
  }

  lemma OptionRoundTrip<T>(o: Option<T>, enc: T -> Json, dec: Json -> Decoded<T>)
    requires o.Some? ==> dec(enc(o.value)) == Ok(o.value) && enc(o.value) != Null
    ensures Optional(Present(EncodeOption(o, enc)), dec) == Ok(o)
  {
  }

  /** An untagged "one or many" round-trips when its elements do and the `Single` decoder
      refuses the array a `Multiple` is written as. */
  lemma UntaggedRoundTrip<T>(v: OneOrMany<T>, enc: T -> Json, dec: Json -> Decoded<T>, name: string)
    requires forall i :: 0 <= i < |Items(v)| ==> dec(enc(Items(v)[i])) == Ok(Items(v)[i])
    requires v.Multiple? ==> dec(EncodeSeq(v.many, enc)).Err?
    ensures DecodeUntagged(EncodeOneOrMany(v, enc), dec, name) == Ok(v)
  {
    match v
    case Single(x) =>
      assert Items(v)[0] == x;
    case Multiple(xs) =>
      assert Items(v) == xs;
      SeqRoundTrip(xs, enc, dec);
  }

  // ---------------------------------------------------------------- field lookup

  lemma FieldNamesDistinct()
    ensures Distinct(StatusFields) && Distinct(SchemaFields) && Distinct(CredentialFields)
    ensures Distinct(PresentationFields) && Distinct(ProofFields) && Distinct(JwsProofFields)
  {
  }

  /** An object written by `Fields` holds value `i` in slot `i`. */
  lemma EncodedSlot(names: seq<string>, values: seq<Json>, i: nat)
    requires |names| == |values| && i < |names| && Distinct(names)
    ensures SlotOf(Object(Fields(names, values)), names, i) == Present(values[i])
  {
    FieldsLookup(names, values, i);
  }

  /** The slot of field `i` of an encoded credential. */
  lemma CredentialSlot<P>(vc: VerifiableCredential<P>, dates: DateText, proofJson: P -> Json, i: nat)
    requires i < |CredentialFields|
    ensures SlotOf(EncodeCredential(vc, dates, proofJson), CredentialFields, i)
            == Present(CredentialValues(vc, dates, proofJson)[i])
  {
    FieldNamesDistinct();
    EncodedSlot(CredentialFields, CredentialValues(vc, dates, proofJson), i);
  }

  /** The slot of field `i` of an encoded presentation; the object is a well-formed one. */
  lemma PresentationSlot<P>(vp: VerifiablePresentation<P>, dates: DateText, proofJson: P -> Json, i: nat)
    requires i < |PresentationFields|
    ensures Shape(EncodePresentation(vp, dates, proofJson), PresentationFields, true).Ok?
    ensures SlotOf(EncodePresentation(vp, dates, proofJson), PresentationFields, i)
            == Present(PresentationValues(vp, dates, proofJson)[i])
  {
    FieldNamesDistinct();
    FieldsKeys(PresentationFields, PresentationValues(vp, dates, proofJson));
    EncodedSlot(PresentationFields, PresentationValues(vp, dates, proofJson), i);
  }

  /** An object written by `Fields` passes the struct check and holds value `i` in slot `i`. */
  lemma EncodedSlots(names: seq<string>, values: seq<Json>, denyUnknown: bool)
    requires |names| == |values| && Distinct(names)
    ensures Shape(Object(Fields(names, values)), names, denyUnknown).Ok?
    ensures forall i :: 0 <= i < |names| ==> SlotOf(Object(Fields(names, values)), names, i) == Present(values[i])
  {
    FieldsKeys(names, values);
    forall i | 0 <= i < |names| ensures SlotOf(Object(Fields(names, values)), names, i) == Present(values[i]) {
      FieldsLookup(names, values, i);
    }
  }

  // ---------------------------------------------------------------- the model's types

  lemma TypeRoundTrip(t: TypeEnum)
    ensures DecodeType(EncodeType(t)) == Ok(t)
  {
    UntaggedRoundTrip(t, EncodeText, DecodeString, "TypeEnum");
  }

  lemma StatusRoundTrip(s: CredentialStatus)
    ensures DecodeStatus(EncodeStatus(s)) == Ok(s)
  {
    FieldNamesDistinct();
    EncodedSlots(StatusFields, StatusValues(s), true);
    OptionRoundTrip(s.id, EncodeUrl, DecodeUrl);
    TypeRoundTrip(s.statusType);
  }

  /** An array of exactly two values reads positionally as one status, but never when its
      first element is an object, as an encoded status is. */
  lemma StatusRejectsStatusArray(xs: seq<CredentialStatus>)
    ensures DecodeStatus(EncodeSeq(xs, EncodeStatus)).Err?
  {
    var items := MapSeq(xs, EncodeStatus);
    if |items| == 2 {
      assert items[0] == EncodeStatus(xs[0]);
      assert SlotOf(Array(items), StatusFields, 0) == Present(items[0]);
    }
  }

  lemma StatusEnumRoundTrip(s: StatusEnum)
    ensures DecodeStatusEnum(EncodeStatusEnum(s)) == Ok(s)
  {
    forall i | 0 <= i < |Items(s)| ensures DecodeStatus(EncodeStatus(Items(s)[i])) == Ok(Items(s)[i]) {
      StatusRoundTrip(Items(s)[i]);
    }
    if s.Multiple? { StatusRejectsStatusArray(s.many); }
    UntaggedRoundTrip(s, EncodeStatus, DecodeStatus, "StatusEnum");
  }

  lemma SchemaRoundTrip(s: CredentialSchema)
    ensures DecodeSchema(EncodeSchema(s)) == Ok(s)
  {
    FieldNamesDistinct();
    EncodedSlots(SchemaFields, SchemaValues(s), true);
  }

  lemma SchemaRejectsSchemaArray(xs: seq<CredentialSchema>)
    ensures DecodeSchema(EncodeSeq(xs, EncodeSchema)).Err?
  {
    var items := MapSeq(xs, EncodeSchema);
    if |items| == 2 {
      assert items[0] == EncodeSchema(xs[0]);
      assert SlotOf(Array(items), SchemaFields, 0) == Present(items[0]);
    }
  }

  lemma SchemaEnumRoundTrip(s: SchemaEnum)
    ensures DecodeSchemaEnum(EncodeSchemaEnum(s)) == Ok(s)
  {
    forall i | 0 <= i < |Items(s)| ensures DecodeSchema(EncodeSchema(Items(s)[i])) == Ok(Items(s)[i]) {
      SchemaRoundTrip(Items(s)[i]);
    }
    if s.Multiple? { SchemaRejectsSchemaArray(s.many); }
    UntaggedRoundTrip(s, EncodeSchema, DecodeSchema, "SchemaEnum");
  }

  lemma DateRoundTrip(dates: DateText, t: DateTime)
    requires LawfulDates(dates)
    ensures DecodeDate(dates, EncodeDate(dates, t)) == Ok(t)
  {
    assert dates.fromText(dates.toText(t)) == Some(t);
  }

  /** Fields 0 to 2 of an encoded credential (context, id, type) decode to their values. */
  lemma CredentialIdentityRoundTrip<P(!new)>(vc: VerifiableCredential<P>, dates: DateText,
                               proofJson: P -> Json, proofOf: Json -> Decoded<P>)
    requires LawfulDates(dates) && ProofCodec(proofJson, proofOf)
    ensures Required(SlotOf(EncodeCredential(vc, dates, proofJson), CredentialFields, 0), "@context", DecodeContext) == Ok(vc.context)
    ensures Optional(SlotOf(EncodeCredential(vc, dates, proofJson), CredentialFields, 1), DecodeUrl) == Ok(vc.id)
    ensures Required(SlotOf(EncodeCredential(vc, dates, proofJson), CredentialFields, 2), "type", DecodeType) == Ok(vc.vcType)
  {
    CredentialSlot(vc, dates, proofJson, 0);
    CredentialSlot(vc, dates, proofJson, 1);
    CredentialSlot(vc, dates, proofJson, 2);
    SeqRoundTrip(vc.context, EncodeUrl, DecodeUrl);
    OptionRoundTrip(vc.id, EncodeUrl, DecodeUrl);
    TypeRoundTrip(vc.vcType);
  }

  /** Fields 3 to 5 of an encoded credential (name, description, issuer) decode to their values. */
  lemma CredentialDescriptionRoundTrip<P(!new)>(vc: VerifiableCredential<P>, dates: DateText,
                               proofJson: P -> Json, proofOf: Json -> Decoded<P>)
    requires LawfulDates(dates) && ProofCodec(proofJson, proofOf)
    ensures Optional(SlotOf(EncodeCredential(vc, dates, proofJson), CredentialFields, 3), DecodeString) == Ok(vc.name)
    ensures Optional(SlotOf(EncodeCredential(vc, dates, proofJson), CredentialFields, 4), DecodeString) == Ok(vc.description)
    ensures Required(SlotOf(EncodeCredential(vc, dates, proofJson), CredentialFields, 5), "issuer", DecodeUrl) == Ok(vc.issuer)
  {
    CredentialSlot(vc, dates, proofJson, 3);
    CredentialSlot(vc, dates, proofJson, 4);
    CredentialSlot(vc, dates, proofJson, 5);
    OptionRoundTrip(vc.name, EncodeText, DecodeString);
    OptionRoundTrip(vc.description, EncodeText, DecodeString);
  }

  /** Fields 6 to 8 of an encoded credential (validity and status) decode to their values. */
  lemma CredentialValidityRoundTrip<P(!new)>(vc: VerifiableCredential<P>, dates: DateText,
                               proofJson: P -> Json, proofOf: Json -> Decoded<P>)
    requires LawfulDates(dates) && ProofCodec(proofJson, proofOf)
    ensures Optional(SlotOf(EncodeCredential(vc, dates, proofJson), CredentialFields, 6), (x: Json) => DecodeDate(dates, x)) == Ok(vc.validFrom)
    ensures Optional(SlotOf(EncodeCredential(vc, dates, proofJson), CredentialFields, 7), (x: Json) => DecodeDate(dates, x)) == Ok(vc.validUntil)
    ensures Optional(SlotOf(EncodeCredential(vc, dates, proofJson), CredentialFields, 8), DecodeStatusEnum) == Ok(vc.credentialStatus)
  {
    CredentialSlot(vc, dates, proofJson, 6);
    CredentialSlot(vc, dates, proofJson, 7);
    CredentialSlot(vc, dates, proofJson, 8);
    if vc.validFrom.Some? { DateRoundTrip(dates, vc.validFrom.value); }
    if vc.validUntil.Some? { DateRoundTrip(dates, vc.validUntil.value); }
    if vc.credentialStatus.Some? { StatusEnumRoundTrip(vc.credentialStatus.value); }
  }

  /** Fields 9 to 11 of an encoded credential (schema, subject, proof) decode to their values. */
  lemma CredentialContentRoundTrip<P(!new)>(vc: VerifiableCredential<P>, dates: DateText,
                               proofJson: P -> Json, proofOf: Json -> Decoded<P>)
    requires LawfulDates(dates) && ProofCodec(proofJson, proofOf)
    ensures Required(SlotOf(EncodeCredential(vc, dates, proofJson), CredentialFields, 9), "credentialSchema", DecodeSchemaEnum) == Ok(vc.credentialSchema)
    ensures Required(SlotOf(EncodeCredential(vc, dates, proofJson), CredentialFields, 10), "credentialSubject", DecodeSubject) == Ok(vc.credentialSubject)
    ensures Optional(SlotOf(EncodeCredential(vc, dates, proofJson), CredentialFields, 11), proofOf) == Ok(vc.proof)
  {
    CredentialSlot(vc, dates, proofJson, 9);
    CredentialSlot(vc, dates, proofJson, 10);
    CredentialSlot(vc, dates, proofJson, 11);
    SchemaEnumRoundTrip(vc.credentialSchema);
    if vc.proof.Some? { assert proofOf(proofJson(vc.proof.value)) == Ok(vc.proof.value); }
  }

  /** A credential written as JSON reads back as itself. */
  lemma CredentialRoundTrip<P(!new)>(vc: VerifiableCredential<P>, dates: DateText,
                               proofJson: P -> Json, proofOf: Json -> Decoded<P>)
    requires LawfulDates(dates) && ProofCodec(proofJson, proofOf)
    ensures DecodeCredential(EncodeCredential(vc, dates, proofJson), dates, proofOf) == Ok(vc)
  {
    FieldNamesDistinct();
    EncodedSlots(CredentialFields, CredentialValues(vc, dates, proofJson), true);
    CredentialIdentityRoundTrip(vc, dates, proofJson, proofOf);
    CredentialDescriptionRoundTrip(vc, dates, proofJson, proofOf);
    CredentialValidityRoundTrip(vc, dates, proofJson, proofOf);
    CredentialContentRoundTrip(vc, dates, proofJson, proofOf);
  }

  lemma CredentialRejectsCredentialArray<P>(vcs: seq<VerifiableCredential<P>>, dates: DateText,
                                            proofJson: P -> Json, proofOf: Json -> Decoded<P>)
    ensures DecodeCredential(EncodeSeq(vcs, (vc: VerifiableCredential<P>) => EncodeCredential(vc, dates, proofJson)),
                             dates, proofOf).Err?
  {
    var items := MapSeq(vcs, (vc: VerifiableCredential<P>) => EncodeCredential(vc, dates, proofJson));
    if |items| == |CredentialFields| {
      assert items[0] == EncodeCredential(vcs[0], dates, proofJson);
      assert SlotOf(Array(items), CredentialFields, 0) == Present(items[0]);
    }
  }

  /** One credential or several, written as JSON, read back as themselves. */
  lemma CredentialsRoundTrip<P(!new)>(vcs: OneOrMany<VerifiableCredential<P>>, dates: DateText,
                                      proofJson: P -> Json, proofOf: Json -> Decoded<P>)
    requires LawfulDates(dates) && ProofCodec(proofJson, proofOf)
    ensures DecodeCredentials(EncodeCredentials(vcs, dates, proofJson), dates, proofOf) == Ok(vcs)
  {
    var enc := (vc: VerifiableCredential<P>) => EncodeCredential(vc, dates, proofJson);
    var dec := (y: Json) => DecodeCredential(y, dates, proofOf);
    forall i | 0 <= i < |Items(vcs)| ensures dec(enc(Items(vcs)[i])) == Ok(Items(vcs)[i]) {
      CredentialRoundTrip(Items(vcs)[i], dates, proofJson, proofOf);
    }
    if vcs.Multiple? { CredentialRejectsCredentialArray(vcs.many, dates, proofJson, proofOf); }
    UntaggedRoundTrip(vcs, enc, dec, "VerifiableCredentialEnum");
  }

  /** A presentation written as JSON reads back as itself. */
  lemma PresentationRoundTrip<P(!new)>(vp: VerifiablePresentation<P>, dates: DateText,
                                 proofJson: P -> Json, proofOf: Json -> Decoded<P>)
    requires LawfulDates(dates) && ProofCodec(proofJson, proofOf)
    ensures DecodePresentation(EncodePresentation(vp, dates, proofJson), dates, proofOf) == Ok(vp)
  {
    PresentationSlot(vp, dates, proofJson, 0);
    PresentationSlot(vp, dates, proofJson, 1);
    PresentationSlot(vp, dates, proofJson, 2);
    PresentationSlot(vp, dates, proofJson, 3);
    PresentationSlot(vp, dates, proofJson, 4);
    OptionRoundTrip(vp.id, EncodeUrl, DecodeUrl);
    TypeRoundTrip(vp.vpType);
    CredentialsRoundTrip(vp.verifiableCredential, dates, proofJson, proofOf);
    OptionRoundTrip(vp.holder, EncodeUrl, DecodeUrl);
    if vp.proof.Some? { assert proofOf(proofJson(vp.proof.value)) == Ok(vp.proof.value); }
    OptionRoundTrip(vp.proof, proofJson, proofOf);
  }

  /** A credential and a presentation are never written as the same JSON value: only
      the credential has an "@context" key. */
  lemma KindsDiffer<P>(vc: VerifiableCredential<P>, vp: VerifiablePresentation<P>, dates: DateText,
                       proofJson: P -> Json)
    ensures EncodeCredential(vc, dates, proofJson) != EncodePresentation(vp, dates, proofJson)
  {
    FieldsKeys(CredentialFields, CredentialValues(vc, dates, proofJson));
    FieldsKeys(PresentationFields, PresentationValues(vp, dates, proofJson));
    assert "@context" in EncodeCredential(vc, dates, proofJson).fields;
    assert "@context" !in EncodePresentation(vp, dates, proofJson).fields;
  }

  /** Two documents are written as the same JSON value exactly when they are equal. */
  lemma EncodeDocumentInjective<P(!new)>(a: Document<P>, b: Document<P>, dates: DateText,
                                         proofJson: P -> Json, proofOf: Json -> Decoded<P>)
    requires LawfulDates(dates) && ProofCodec(proofJson, proofOf)
    ensures EncodeDocument(a, dates, proofJson) == EncodeDocument(b, dates, proofJson) <==> a == b
  {
    if a.Credential? && b.Credential? {
      CredentialRoundTrip(a.vc, dates, proofJson, proofOf);
      CredentialRoundTrip(b.vc, dates, proofJson, proofOf);
    } else if a.Presentation? && b.Presentation? {
      PresentationRoundTrip(a.vp, dates, proofJson, proofOf);
      PresentationRoundTrip(b.vp, dates, proofJson, proofOf);
    } else if a.Credential? {
      KindsDiffer(a.vc, b.vp, dates, proofJson);
    } else {
      KindsDiffer(b.vc, a.vp, dates, proofJson);
    }
  }

  // ---------------------------------------------------------------- the proof shapes

  lemma RawProofCodec(dates: DateText)
    requires LawfulDates(dates)
    ensures ProofCodec(RawProofJson(dates), RawProofOf(dates))
  {
    forall p: RawProof ensures DecodeRawProof(dates, EncodeRawProof(dates, p)) == Ok(p) {
      FieldNamesDistinct();
      EncodedSlots(ProofFields, RawProofValues(dates, p), false);
      DateRoundTrip(dates, p.created);
      SeqRoundTrip(p.proofValue, EncodeByte, DecodeByte);
    }
  }

  lemma EncodedProofCodec(dates: DateText)
    requires LawfulDates(dates)
    ensures ProofCodec(EncodedProofJson(dates), EncodedProofOf(dates))
  {
    forall p: EncodedProof ensures DecodeEncodedProof(dates, EncodeEncodedProof(dates, p)) == Ok(p) {
      FieldNamesDistinct();
      EncodedSlots(ProofFields, EncodedProofValues(dates, p), false);
      DateRoundTrip(dates, p.created);
    }
  }

  lemma JwsProofCodec(dates: DateText)
    requires LawfulDates(dates)
    ensures ProofCodec(JwsProofJson(dates), JwsProofOf(dates))
  {
    forall p: JwsProof ensures DecodeJwsProof(dates, EncodeJwsProof(dates, p)) == Ok(p) {
      FieldNamesDistinct();
      EncodedSlots(JwsProofFields, JwsProofValues(dates, p), false);
      DateRoundTrip(dates, p.created);
    }
  }

  // ---------------------------------------------------------------- what is refused

  /** `deny_unknown_fields`: an object with any key that is not a credential field is not a
      credential. */
  lemma CredentialDeniesUnknownKeys<P>(m: map<string, Json>, key: string, dates: DateText,
                                       proofOf: Json -> Decoded<P>)
    requires key in m && key !in CredentialFields
    ensures DecodeCredential(Object(m), dates, proofOf) == Err(UnknownField)
  {
  }

  lemma PresentationDeniesUnknownKeys<P>(m: map<string, Json>, key: string, dates: DateText,
                                         proofOf: Json -> Decoded<P>)
    requires key in m && key !in PresentationFields
    ensures DecodePresentation(Object(m), dates, proofOf) == Err(UnknownField)
  {
  }

  /** `Proof` is the one struct without `deny_unknown_fields`: an extra key changes nothing. */
  lemma ProofIgnoresExtraKeys(m: map<string, Json>, key: string, extra: Json, dates: DateText)
    requires key !in ProofFields
    ensures DecodeRawProof(dates, Object(m[key := extra])) == DecodeRawProof(dates, Object(m))
  {
    var n := m[key := extra];
    forall i | 0 <= i < |ProofFields|
      ensures SlotOf(Object(n), ProofFields, i) == SlotOf(Object(m), ProofFields, i)
    {
      assert ProofFields[i] != key;
    }
  }

  /** Untagged decoding tries `Single` first: a two-element array whose elements fit the
      two fields of a schema is read, positionally, as one schema and not as a list. */
  lemma PairIsOneSchema(id: string, t: string)
    requires IsUrl(id)
    ensures DecodeSchemaEnum(Array([String(id), String(t)])) == Ok(Single(CredentialSchema(id, t)))
  {
  }
}
