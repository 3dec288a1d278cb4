/** builder.rs: a credential put together field by field.  The builder owns its fields
    and each setter replaces one of them; the subject, type, schema and status are fixed
    by `new`. */
module Builder {
  import opened Base
  import opened Json
  import opened Urls
  import opened Primitives
  import opened Model
  import Credential

  class VerifiableCredentialBuilder {
    var context: seq<Url>
    var id: Option<Url>
    const vcType: TypeEnum
    var name: Option<string>
    var description: Option<string>
    var issuer: Url
    var validFrom: Option<DateTime>
    var validUntil: Option<DateTime>
    const credentialStatus: Option<StatusEnum>
    const credentialSchema: SchemaEnum
    const credentialSubject: Json
    var proof: Option<RawProof>

    /** The credential `build` would produce now. */
    function Value(): VerifiableCredential<RawProof>
      reads this
    {
      VerifiableCredential(context, id, vcType, name, description, issuer, validFrom, validUntil,
                           credentialStatus, credentialSchema, credentialSubject, proof)
    }

    constructor From(vc: VerifiableCredential<RawProof>)
      ensures Value() == vc
    {
      context := vc.context;
      id := vc.id;
      vcType := vc.vcType;
      name := vc.name;
      description := vc.description;
      issuer := vc.issuer;
      validFrom := vc.validFrom;
      validUntil := vc.validUntil;
      credentialStatus := vc.credentialStatus;
      credentialSchema := vc.credentialSchema;
      credentialSubject := vc.credentialSubject;
      proof := vc.proof;
    }

    /** `new`: fails exactly when the schema id is not a URL; otherwise the credential
        context, a "urn:uuid:" id and issuer from the two fresh UUIDs (inputs here), the type
        "VerifiableCredential", the one "JsonSchema" schema, the subject, and nothing else. */
    static method New(subject: Json, schemaId: string, idUuid: string, issuerUuid: string)
      returns (r: Result<VerifiableCredentialBuilder, Error>)
      ensures r.Ok? <==> IsUrl(schemaId)
      ensures r.Err? ==> r.error == UrlInvalid(schemaId)
      ensures r.Ok? ==> fresh(r.value)
      ensures r.Ok? ==> r.value.Value() == Credential.Created<RawProof>(subject, schemaId, idUuid, issuerUuid).value
    {
      var created := Credential.Created<RawProof>(subject, schemaId, idUuid, issuerUuid);
      if created.Err? {
        return Err(created.error);
      }
      var b := new VerifiableCredentialBuilder.From(created.value);
      r := Ok(b);
    }

    method Name(n: Option<string>)
      modifies this
      ensures Value() == old(Value()).(name := n)
    {
      name := n;
    }

    method Description(d: Option<string>)
      modifies this
      ensures Value() == old(Value()).(description := d)
    {
      description := d;
    }

    method ValidFrom(t: Option<DateTime>)
      modifies this
      ensures Value() == old(Value()).(validFrom := t)
    {
      validFrom := t;
    }

    method ValidUntil(t: Option<DateTime>)
      modifies this
      ensures Value() == old(Value()).(validUntil := t)
    {
      validUntil := t;
    }

    method Issuer(u: Url)
      modifies this
      ensures Value() == old(Value()).(issuer := u)
    {
      issuer := u;
    }

    method Proof(p: Option<RawProof>)
      modifies this
      ensures Value() == old(Value()).(proof := p)
    {
      proof := p;
    }

    /** `add_context`: appends, keeping the earlier entries in order. */
    method AddContext(u: Url)
      modifies this
      ensures context == old(context) + [u]
      ensures Value() == old(Value()).(context := old(context) + [u])
    {
      context := context + [u];
    }

    method Id(u: Option<Url>)
      modifies this
      ensures Value() == old(Value()).(id := u)
    {
      id := u;
    }

    /** `build`: always succeeds, with every field as it stands. */
    method Build() returns (r: Result<VerifiableCredential<RawProof>, Error>)
      ensures r.Ok? && r.value == Value()
    {
      r := Ok(VerifiableCredential(context, id, vcType, name, description, issuer, validFrom, validUntil,
                                   credentialStatus, credentialSchema, credentialSubject, proof));
    }
  }

  /** A typical chain: `new`, then a name, an extra context and a start date, then
      `build`.  No setter reaches the subject, type, schema or status, so the result is
      what `new` seeded (see `Credential.Created`) with just the values set, the extra
      context after the credentials context. */
  method BuildDescribed(subject: Json, schemaId: string, idUuid: string, issuerUuid: string,
                        name: string, extra: Url, validFrom: DateTime)
    returns (r: Result<VerifiableCredential<RawProof>, Error>)
    ensures r.Ok? <==> IsUrl(schemaId)
    ensures r.Ok? ==> r.value == Credential.Created<RawProof>(subject, schemaId, idUuid, issuerUuid).value
                                   .(name := Some(name), validFrom := Some(validFrom), context := [CredentialsV2, extra])
  {
    var made := VerifiableCredentialBuilder.New(subject, schemaId, idUuid, issuerUuid);
    if made.Err? {
      return Err(made.error);
    }
    var b := made.value;
    b.Name(Some(name));
    b.AddContext(extra);
    b.ValidFrom(Some(validFrom));
    r := b.Build();
  }
}
