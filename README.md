# Verifiable-Credential-Tools, modelled in Dafny

This project models the core of Verifiable-Credential-Tools, a Rust crate for W3C verifiable credentials and presentations. The crate

- reads and writes credentials and presentations as JSON through serde,
- signs them with Ed25519 and verifies the signature,
- checks a credential's subject against a JSON Schema, which may itself be a signed credential,
- builds credentials field by field,
- converts them to and from protobuf messages,
- turns a github.com file URL into a GitHub contents-API URL.

The modules follow the crate's files:

| module | what it models |
|---|---|
| `Model` | The data model of native.rs (and its wasm.rs copy). It is generic in the proof, because each file has its own proof: raw signature bytes (`RawProof`), a base64 `proofValue` (`EncodedProof`), or a base64 `jws` (`JwsProof`). |
| `Serde`, `SerdeLaws` | What the serde derives do: `deny_unknown_fields`, untagged "single or many" enums tried in declaration order, optional fields, and the lax `Proof`. They also prove that every value reads back from the JSON written for it. |
| `Signing` | The protocol of `sign` and `verify` that every file follows: serialise with `serde_json::to_string`, sign the bytes with Ed25519, and attach or take the proof. It also holds `Signable`, a class whose methods update a document's proof in place, as the trait's `&mut self` methods do. |
| `Native`, `Credential`, `Presentation`, `Wasm` | The constructors, signing, verification, key generation and schema checks of native.rs, verifiable_credential.rs, verifiable_presentation.rs and wasm.rs. |
| `Builder` | builder.rs, as a class whose setters update its fields. builder.rs imports `crate::Proof`, but lib.rs declares no `builder` module and no crate-level `Proof`, so the proof type is unsettled in the source. The model's choice is the native target's `RawProof`. |
| `ProtoMessages`, `ProtoCodec` | The prost messages, and the `From` conversions of protobuf.rs. The credential conversions of protobuf/src/main.rs (lines 18-258) are the same code as protobuf.rs:111-351, with the crate paths written out (`vc_signing::native::…`, `prost::Message::decode`), so one model covers both and the rows cite protobuf.rs. Every `unwrap()` and `panic!` on the way back becomes an error value. protobuf.rs:47-56 and 197-206 build a `native::Proof` with `proof_type`, `jws`, `proof_purpose` and `created`. native.rs:93-103 does not declare that shape, but wasm.rs:93-101 does, so ProtoCodec uses that shape (`JwsProof`) for the native documents' proof. |
| `Github` | `construct_github_api_url`. |

The model takes the libraries the crate calls as parameters, each a record of functions:

- ring's Ed25519
- `BASE64_STANDARD`
- serde_json's text form
- chrono's RFC 3339 form
- prost's string encoding
- the `jsonschema` and valico engines

Each law a lemma relies on is a predicate that the lemma requires:

- `Correct`: a signature verifies under its key pair.
- `Binding`: a signature does not verify for another message.
- `LawfulBase64`, `LawfulDates`, `LawfulText`, `LawfulStrings`: decoding undoes encoding.
- `Faithful`: the JSON printer is injective.

Urls are the strings that pass the scheme check of section 3.1 of RFC 3986: a letter, then letters, digits, "+", "-" or ".", then ":". Base64 is the alphabet-and-padding codec of section 4 of RFC 4648. Ed25519 is the scheme of RFC 8032 section 5.1.

## Model

| member | source | states |
|---|---|---|
| Base.MapSeq | vc_signing/src/protobuf.rs:237-241 | `iter().map(f).collect()` keeps the length and maps each element in place |
| Base.OkOr | vc_signing/src/verifiable_credential.rs:219 | `ok_or`: Ok exactly when the option holds a value, which it carries; otherwise the given error |
| Json.Get | vc_signing/src/verifiable_credential.rs:259-263 | `get(key)` finds a member exactly when the value is an object holding the key, and returns that member |
| Json.AsStr | vc_signing/src/verifiable_credential.rs:264-265 | `as_str` succeeds exactly on JSON strings and returns their text |
| Primitives.AsU32 | vc_signing/src/protobuf.rs:190-195 | `nanos as u32` keeps a non-negative i32 and sends a negative one to at least 2^31 |
| Primitives.FromTimestamp | vc_signing/src/protobuf.rs:51-55 | `DateTime::from_timestamp` succeeds when the nanoseconds are within one second and keeps both parts; every other nanosecond value is rejected (a simplification, see Left out) |
| Primitives.PairedPublicKey | vc_signing/src/native.rs:252-256 | the public key of the pair held in a PKCS#8 document, which exists exactly when `from_pkcs8` accepts it |
| Urls.Parse | vc_signing/src/verifiable_credential.rs:233-243 | the model's `Url::parse` succeeds exactly on text with an RFC 3986 scheme, and prints back as that text |
| Urls.ParsePrinted | vc_signing/src/protobuf.rs:240 | a printed Url parses back to itself |
| Urls.UrnUuidParses | vc_signing/src/verifiable_credential.rs:234 | every "urn:uuid:" text parses, so that `?` never fires |
| Urls.CredentialsV2Parses | vc_signing/src/verifiable_credential.rs:233 | the W3C credentials context parses |
| Urls.MetaSchemaIdParses | vc_signing/src/verifiable_credential.rs:252 | the draft 2020-12 meta-schema id parses |
| Urls.SchemeIsUrl | vc_signing/src/verifiable_credential.rs:233-243 | a text whose first ':' ends a letter-led scheme is a URL |
| Strings.Find | get_github_schema/src/lib.rs:54-55 | `str::find` returns an index where the whole pattern fits |
| Strings.FindLeast | get_github_schema/src/lib.rs:54-57 | the index `find` returns is an occurrence, with none before it; a None means the pattern occurs nowhere |
| Strings.FindIs | get_github_schema/src/lib.rs:75-77 | an occurrence with none before it is the one `find` returns |
| Strings.SplitJoin | vc_signing/src/verifiable_credential.rs:84 | splitting `join("\n")` of newline-free lines gives back the lines |
| Strings.SplitLines | vc_signing/src/native.rs:234-240 | splitting a text of newline-terminated lines gives back the lines and then one empty string |
| Model.WithProofLaws | vc_signing/src/native.rs:167-172 | replacing the proof twice keeps the second; putting the old proof back restores the document |
| Serde.DecodeUrl | vc_signing/src/native.rs:36-37 | a Url field reads exactly a JSON string that passes the URL check |
| Serde.DecodeUntagged | vc_signing/src/native.rs:56-61 | untagged enums try `Single` first, then `Multiple`, and otherwise report that no variant matched |
| Serde.Shape | vc_signing/src/native.rs:32-34 | `deny_unknown_fields` accepts an object only when each of its keys is a field |
| Serde.DecodeEach | vc_signing/src/native.rs:36 | a `Vec` decodes exactly when each element does, and keeps its length |
| Serde.EncodeStatus | vc_signing/src/native.rs:70-76 | `to_value` writes an object whose keys are exactly the struct's field names; read back by SerdeLaws.StatusRoundTrip |
| Serde.DecodeStatus | vc_signing/src/native.rs:70-76 | a decoded status came from an object with no unknown key (or a two-element array), and an object held its required `type` |
| Serde.EncodeSchema | vc_signing/src/native.rs:85-91 | writes exactly the keys `id` and `type`; read back by SerdeLaws.SchemaRoundTrip |
| Serde.DecodeSchema | vc_signing/src/native.rs:85-91 | a decoded schema came from an object with no unknown key (or an array by position), and an object held both `id` and `type` |
| Serde.EncodeCredential | vc_signing/src/native.rs:32-54 | writes exactly the twelve field names (with `None` written as `null`); read back by SerdeLaws.CredentialRoundTrip |
| Serde.DecodeCredential | vc_signing/src/native.rs:32-54 | a decoded credential came from an object with no unknown key (or an array by position); an object held `@context`, `type`, `issuer`, `credentialSchema` and `credentialSubject`, and the subject is that member unchanged |
| Serde.EncodePresentation | vc_signing/src/native.rs:13-23 | writes exactly the five field names; read back by SerdeLaws.PresentationRoundTrip |
| Serde.DecodePresentation | vc_signing/src/native.rs:13-23 | a decoded presentation came from an object with no unknown key (or an array by position), and an object held `type` and `verifiableCredential` |
| Serde.EncodeRawProof | vc_signing/src/native.rs:93-103 | writes exactly the five proof field names; read back by SerdeLaws.RawProofCodec |
| Serde.DecodeRawProof | vc_signing/src/native.rs:93-103 | unknown keys are allowed, but an object must hold all five fields |
| Serde.EncodeEncodedProof | vc_signing/src/verifiable_credential.rs:202-208 | writes exactly the five proof field names; read back by SerdeLaws.EncodedProofCodec |
| Serde.DecodeEncodedProof | vc_signing/src/verifiable_credential.rs:202-208 | unknown keys are allowed; an object must hold all five fields, and `proofValue` is kept as the string it was |
| Serde.EncodeJwsProof | vc_signing/src/wasm.rs:93-101 | writes exactly the four field names; read back by SerdeLaws.JwsProofCodec |
| Serde.DecodeJwsProof | vc_signing/src/wasm.rs:93-101 | unknown keys are allowed; an object must hold all four fields, and `jws` is kept as the string it was |
| SerdeLaws.SeqRoundTrip | vc_signing/src/native.rs:36 | a `Vec` reads back from its JSON array when its elements do |
| SerdeLaws.OptionRoundTrip | vc_signing/src/native.rs:37 | an `Option` field reads back as itself, with `null` as None |
| SerdeLaws.UntaggedRoundTrip | vc_signing/src/native.rs:56-61 | "single or many" reads back to the same arm, so a one-element list is not turned into a single value |
| SerdeLaws.TypeRoundTrip | vc_signing/src/native.rs:56-61 | a `TypeEnum` reads back as itself |
| SerdeLaws.StatusRoundTrip | vc_signing/src/native.rs:70-76 | a `CredentialStatus` reads back as itself |
| SerdeLaws.StatusRejectsStatusArray | vc_signing/src/native.rs:63-68 | an encoded list of statuses is never read as one status |
| SerdeLaws.StatusEnumRoundTrip | vc_signing/src/native.rs:63-68 | a `StatusEnum` reads back to the same arm |
| SerdeLaws.SchemaRoundTrip | vc_signing/src/native.rs:85-91 | a `CredentialSchema` reads back as itself |
| SerdeLaws.SchemaRejectsSchemaArray | vc_signing/src/native.rs:78-83 | an encoded list of schemas is never read as one schema |
| SerdeLaws.SchemaEnumRoundTrip | vc_signing/src/native.rs:78-83 | a `SchemaEnum` reads back to the same arm |
| SerdeLaws.DateRoundTrip | vc_signing/src/native.rs:43-46 | a `DateTime<Utc>` field reads back from its RFC 3339 text |
| SerdeLaws.CredentialIdentityRoundTrip | vc_signing/src/native.rs:35-39 | the context, id and type of an encoded credential read back as themselves |
| SerdeLaws.CredentialDescriptionRoundTrip | vc_signing/src/native.rs:40-42 | the name, description and issuer read back as themselves |
| SerdeLaws.CredentialValidityRoundTrip | vc_signing/src/native.rs:43-48 | the validity dates and the status read back as themselves |
| SerdeLaws.CredentialContentRoundTrip | vc_signing/src/native.rs:49-53 | the schema, the subject and the proof read back as themselves |
| SerdeLaws.CredentialRoundTrip | vc_signing/src/native.rs:32-54 | `from_value(to_value(vc))` gives back `vc` |
| SerdeLaws.CredentialRejectsCredentialArray | vc_signing/src/native.rs:25-30 | an encoded list of credentials is never read as one credential |
| SerdeLaws.CredentialsRoundTrip | vc_signing/src/native.rs:25-30 | `VerifiableCredentialEnum` reads back to the same arm |
| SerdeLaws.PresentationRoundTrip | vc_signing/src/native.rs:13-23 | `from_value(to_value(vp))` gives back `vp` |
| SerdeLaws.KindsDiffer | vc_signing/src/native.rs:13-54 | a credential and a presentation never encode to the same JSON |
| SerdeLaws.EncodeDocumentInjective | vc_signing/src/native.rs:13-54 | two documents encode to the same JSON exactly when they are equal |
| SerdeLaws.RawProofCodec | vc_signing/src/native.rs:93-103 | the byte-array proof reads back as itself and is never `null` |
| SerdeLaws.EncodedProofCodec | vc_signing/src/verifiable_credential.rs:202-208 | the base64 `proofValue` proof reads back as itself and is never `null` |
| SerdeLaws.JwsProofCodec | vc_signing/src/wasm.rs:93-101 | the `jws` proof reads back as itself and is never `null` |
| SerdeLaws.CredentialDeniesUnknownKeys | vc_signing/src/native.rs:32-34 | an object with a key that is not a credential field is refused |
| SerdeLaws.PresentationDeniesUnknownKeys | vc_signing/src/native.rs:13-15 | an object with a key that is not a presentation field is refused |
| SerdeLaws.ProofIgnoresExtraKeys | vc_signing/src/native.rs:93-94 | `Proof` has no `deny_unknown_fields`, so an extra key changes nothing |
| SerdeLaws.PairIsOneSchema | vc_signing/src/native.rs:78-91 | for every URL id and any type text, a two-element array of the two is read as one schema, by position |
| Signing.MessageInjective | vc_signing/src/native.rs:114 | the bytes signed are equal exactly when the documents are |
| Signing.MessageOf | vc_signing/src/native.rs:114 | the bytes handed to Ed25519: the UTF-8 of `to_string` of the document as given, proof included; that different documents give different bytes is Signing.MessageInjective |
| Signing.SignedAsWritten | vc_signing/src/native.rs:109-124 | `sign` as written: Ok exactly when `from_pkcs8` accepts the key; the result has a proof, and otherwise equals the input |
| Signing.Signed | vc_signing/src/native.rs:109-124 | `sign` with the proof left out of the signed bytes, with the same guarantees |
| Signing.Verified | vc_signing/src/native.rs:126-139 | `verify`: an unsigned document fails with the document's own text, and an unreadable signature fails with its error; otherwise the signature is checked over the document without its proof |
| Signing.SignThenVerify | vc_signing/src/native.rs:109-139 | corrected signing (see Findings): a document signed with a PKCS#8 key verifies under that pair's public key |
| Signing.SignUnsignedThenVerify | vc_signing/src/native.rs:109-139 | the code as written does end to end for a document that had no proof |
| Signing.ResignAsWrittenFails | vc_signing/src/native.rs:114 | the code as written re-signs an already signed document so that it no longer verifies |
| Signing.TamperedFails | vc_signing/src/native.rs:126-139 | a proof moved onto a different document is rejected |
| Signing.Signable.TakeProof | vc_signing/src/native.rs:189-191 | `get_proof`: hands out the proof and leaves none, or fails with the unsigned text |
| Signing.Signable.SetProof | vc_signing/src/native.rs:192-195 | `set_proof` replaces the proof and nothing else, and returns Ok |
| Signing.Signable.Sign | vc_signing/src/native.rs:109-124 | corrected signing (see Findings): on the document in place: Ok exactly on an accepted key; an error leaves the document as it was |
| Signing.Signable.Verify | vc_signing/src/native.rs:126-139 | verifies a clone, leaving the document unchanged |
| Native.NativeProtocol | vc_signing/src/native.rs:115-121 | the raw-byte proof carries back the signature it was given |
| Native.MakeProof | vc_signing/src/native.rs:115-121 | the attached proof carries `now` and the signature bytes as they are |
| Native.SignedProof | vc_signing/src/native.rs:113-122 | corrected signing (see Findings): `sign` attaches "DataIntegrityProof", now, "eddsa-rdfc-2022", "assertionMethod" and the signature over the proof-less document |
| Native.VerifyUnsigned | vc_signing/src/native.rs:166-169 | an unsigned VC fails with "VC is unsigned" and an unsigned VP with "VP is unsigned" |
| Native.NewPresentation | vc_signing/src/native.rs:210-218 | `new` succeeds exactly when serde decodes the value, and gives the decoded presentation |
| Native.NewPresentationRoundTrip | vc_signing/src/native.rs:210-218 | every presentation comes back from its JSON |
| Native.NewCredential | vc_signing/src/native.rs:219-243 | decodes the schema credential first, then the candidate, each failure returned as that decode error; an uncompilable schema subject is `SchemaInvalid`; Ok exactly when both decode, the schema subject compiles and validation finds no error; returns the candidate |
| Native.NewCredentialReport | vc_signing/src/native.rs:232-241 | a failed validation reports one newline-terminated "path: detail" line per valico error, in order |
| Native.ValicoLine | vc_signing/src/native.rs:232-241 | a report line starts with the error's path, and is only the path when valico gives no detail |
| Native.ValicoReport | vc_signing/src/native.rs:232-241 | empty exactly when there are no errors; otherwise it starts with the first error's line and a newline |
| Native.GenKeys | vc_signing/src/native.rs:246-258 | returns the PKCS#8 document and the public key of its pair, and fails exactly when `from_pkcs8` rejects it |
| Native.GeneratedKeysVerify | vc_signing/src/native.rs:246-258 | corrected signing (see Findings): a generated pair signs a credential that verifies under its public key |
| Credential.Base64Protocol | vc_signing/src/verifiable_credential.rs:196-227 | the base64 proof carries back its signature under a lawful base64, and every unsigned document gets the given text |
| Credential.MakeProof | vc_signing/src/verifiable_credential.rs:202-208 | the attached proof carries `now` and the base64 text of the signature |
| Credential.SignedProof | vc_signing/src/verifiable_credential.rs:196-210 | corrected signing (see Findings): `sign` attaches the four constants, `now` and the base64 of the signature over the proof-less credential |
| Credential.SignThenVerifyCredential | vc_signing/src/verifiable_credential.rs:196-227 | corrected signing (see Findings): a signed credential verifies under the paired public key |
| Credential.Base64Rejected | vc_signing/src/verifiable_credential.rs:218-220 | a `proof_value` that is not base64 fails with the decoder's error before any signature check |
| Credential.ReportSplits | vc_signing/src/verifiable_credential.rs:75-84 | the error text splits back into one "Schema validation error: … At: …" line per violation, in order |
| Credential.ViolationLine | vc_signing/src/verifiable_credential.rs:75-84 | a line starts with "Schema validation error: " and ends with " At: " and the instance path |
| Credential.Report | vc_signing/src/verifiable_credential.rs:75-84 | empty exactly when there is no violation; otherwise it starts with the first violation's line |
| Credential.CheckSignedSchema | vc_signing/src/verifiable_credential.rs:94-95 | the schema credential's own `verify`: "VC is unsigned" without a proof, the base64 error for an unreadable `proofValue`, and Ok only for a signed schema |
| Credential.Validate | vc_signing/src/verifiable_credential.rs:96-115 | Ok exactly when the schema compiles and no violation is found, returning the credential unchanged; otherwise the compile error or the joined report |
| Credential.SchemaCheck | vc_signing/src/verifiable_credential.rs:54-121 | without a schema: the meta-schema when the credential names it, else "Missing schema"; with one, "Failed to verify schema signature" unless it verifies, else validation against its subject |
| Credential.UnverifiedSchemaIgnoresEngine | vc_signing/src/verifiable_credential.rs:94-118 | an unverified schema is refused whatever the validators would say |
| Credential.SignedSchemaIsUsed | vc_signing/src/verifiable_credential.rs:94-115 | corrected signing (see Findings): a schema credential signed with the key it is checked under is the one validated against |
| Credential.New | vc_signing/src/verifiable_credential.rs:122-132 | a decode failure is returned as is; otherwise the result is `schema_check`'s |
| Credential.NewOfEncoded | vc_signing/src/verifiable_credential.rs:122-132 | `new` of an encoded credential is `schema_check` of that credential |
| Credential.Created | vc_signing/src/verifiable_credential.rs:231-249 | fails exactly when the schema id is not a URL; otherwise gives the credential with the v2 context, "urn:uuid:" id and issuer, type "VerifiableCredential", a "JsonSchema" schema, the subject and nothing else |
| Credential.SchemaIdOf | vc_signing/src/verifiable_credential.rs:250-266 | the meta-schema id without a schema; "No $id field in schema" and "$id is not str" for a bad schema subject |
| Credential.Create | vc_signing/src/verifiable_credential.rs:228-271 | the `$id` errors, then the URL error, then `schema_check` of the built credential |
| Credential.CreateWithoutSchema | vc_signing/src/verifiable_credential.rs:250-255 | without a schema the subject is checked against the meta-schema |
| Presentation.New | vc_signing/src/verifiable_presentation.rs:21-26 | `new` is serde decoding and nothing more |
| Presentation.NewRoundTrip | vc_signing/src/verifiable_presentation.rs:21-26 | every presentation comes back from its JSON |
| Presentation.SignThenVerifyPresentation | vc_signing/src/verifiable_presentation.rs:36-67 | corrected signing (see Findings): a signed presentation verifies under the paired public key |
| Presentation.TamperedPresentationFails | vc_signing/src/verifiable_presentation.rs:52-67 | a changed presentation carrying the signed one's proof fails with "Failed to verify" |
| Wasm.JwsProtocol | vc_signing/src/wasm.rs:110-134 | the `jws` proof carries back its signature, and both document types are unsigned with "VC is unsigned" |
| Wasm.MakeProof | vc_signing/src/wasm.rs:113-118 | the attached `jws` proof carries `now` and the base64 text of the signature |
| Wasm.SignThenVerifyJws | vc_signing/src/wasm.rs:170-194 | corrected signing (see Findings): a signed credential or presentation verifies under the paired public key |
| Wasm.UnsignedPresentationSaysCredential | vc_signing/src/wasm.rs:121-124 | an unsigned presentation is reported as "VC is unsigned" |
| Wasm.NewPresentation | vc_signing/src/wasm.rs:105-109 | `new` is decoding and nothing more |
| Wasm.NewPresentationRoundTrip | vc_signing/src/wasm.rs:105-109 | every presentation comes back from its JSON |
| Wasm.NewCredential | vc_signing/src/wasm.rs:145-169 | the same valico check as native.rs over this target's structs |
| Wasm.NewCredentialOfEncoded | vc_signing/src/wasm.rs:145-169 | for encoded credentials, `new` succeeds exactly when the schema subject compiles and validates the candidate |
| Wasm.GenKeys | vc_signing/src/wasm.rs:218-233 | the key pair struct holds the PKCS#8 document and its public key |
| Wasm.GeneratedKeysVerify | vc_signing/src/wasm.rs:218-233 | corrected signing (see Findings): a generated pair signs a document that verifies under its public key |
| Builder.VerifiableCredentialBuilder.New | vc_signing/src/builder.rs:24-53 | fails exactly when the schema id is not a URL; otherwise a fresh builder holding the credential `create` would build |
| Builder.VerifiableCredentialBuilder.Name | vc_signing/src/builder.rs:55-58 | sets `name`, nothing else |
| Builder.VerifiableCredentialBuilder.Description | vc_signing/src/builder.rs:60-63 | sets `description`, nothing else |
| Builder.VerifiableCredentialBuilder.ValidFrom | vc_signing/src/builder.rs:65-68 | sets `valid_from`, nothing else |
| Builder.VerifiableCredentialBuilder.ValidUntil | vc_signing/src/builder.rs:70-73 | sets `valid_until`, nothing else |
| Builder.VerifiableCredentialBuilder.Issuer | vc_signing/src/builder.rs:75-78 | sets `issuer`, nothing else |
| Builder.VerifiableCredentialBuilder.Proof | vc_signing/src/builder.rs:80-83 | sets `proof`, nothing else |
| Builder.VerifiableCredentialBuilder.AddContext | vc_signing/src/builder.rs:85-88 | appends to the context and keeps the earlier entries in order |
| Builder.VerifiableCredentialBuilder.Id | vc_signing/src/builder.rs:90-93 | sets `id`, nothing else |
| Builder.VerifiableCredentialBuilder.Build | vc_signing/src/builder.rs:95-110 | always Ok, with every field as it stands |
| Builder.BuildDescribed | vc_signing/src/builder.rs:24-110 | a chained build gives the created credential with the name, start date and extra context set |
| ProtoCodec.ConvertAll | vc_signing/src/protobuf.rs:113-117 | converts every element in order, and fails exactly when some element does |
| ProtoCodec.ConvertAllRoundTrip | vc_signing/src/protobuf.rs:113-117 | converting back a converted list gives the list |
| ProtoCodec.UrlOf | vc_signing/src/protobuf.rs:225 | `Url::from_str(..).unwrap()` fails exactly on a non-URL, naming the text |
| ProtoCodec.OptionalUrlOf | vc_signing/src/protobuf.rs:224 | an absent text converts to None; a present one converts exactly when it is a URL, failing with its text, and prints back as that text |
| ProtoCodec.OptionalUrlRoundTrip | vc_signing/src/protobuf.rs:22 | an optional Url survives the trip |
| ProtoCodec.DateTimeOf | vc_signing/src/protobuf.rs:190-195 | a timestamp converts when its nanoseconds are within one second and keeps both parts; every other nanosecond value is rejected (a simplification, see Left out) |
| ProtoCodec.TimestampOf | vc_signing/src/protobuf.rs:255-260 | the Timestamp keeps the seconds, and its nanoseconds are within one second |
| ProtoCodec.OptionalDateTime | vc_signing/src/protobuf.rs:190-195 | an absent timestamp is None, a present one converts as DateTimeOf does |
| ProtoCodec.TimestampRoundTrip | vc_signing/src/protobuf.rs:255-260 | a date survives the trip through a `Timestamp` |
| ProtoCodec.NegativeNanosRejected | vc_signing/src/protobuf.rs:192 | the `as u32` cast does not rescue negative nanoseconds |
| ProtoCodec.OptionalDateRoundTrip | vc_signing/src/protobuf.rs:190-195 | an optional date survives the trip |
| ProtoCodec.TypeStructOf | vc_signing/src/protobuf.rs:244-253 | the `TypeEnum` arm is kept in the `oneof` |
| ProtoCodec.TypeEnumOf | vc_signing/src/protobuf.rs:208-216 | an unset field and a struct with no arm set are two distinct failures |
| ProtoCodec.TypeRoundTrip | vc_signing/src/protobuf.rs:208-216 | a `TypeEnum` survives the trip to the same arm |
| ProtoCodec.SchemaOf | vc_signing/src/protobuf.rs:131-137 | a schema converts exactly when its id is a URL |
| ProtoCodec.SchemaEnumOf | vc_signing/src/protobuf.rs:119-138 | a missing schema fails; a present one converts exactly when every schema id is a URL; the arm and the length are kept |
| ProtoCodec.SchemaChoiceOf | vc_signing/src/protobuf.rs:262-280 | the arm and the length are kept, and every schema id written is a URL text |
| ProtoCodec.SchemaEnumRoundTrip | vc_signing/src/protobuf.rs:119-138 | a `SchemaEnum` survives the trip |
| ProtoCodec.StatusOf | vc_signing/src/protobuf.rs:168-183 | a non-URL status id fails with its text, before the type is looked at; then a status without a type fails with "status_type"; Ok exactly when the id (if any) is a URL and the type is set |
| ProtoCodec.StatusRoundTrip | vc_signing/src/protobuf.rs:168-183 | a `CredentialStatus` survives the trip |
| ProtoCodec.StatusEnumOf | vc_signing/src/protobuf.rs:142-184 | the arm and the length are kept |
| ProtoCodec.StatusChoiceOf | vc_signing/src/protobuf.rs:287-327 | the arm and the length are kept, and every status id written is a URL text |
| ProtoCodec.StatusEnumRoundTrip | vc_signing/src/protobuf.rs:142-184 | a `StatusEnum` survives the trip |
| ProtoCodec.OptionalStatusRoundTrip | vc_signing/src/protobuf.rs:140-184 | an optional status survives the trip |
| ProtoCodec.SubjectAny | vc_signing/src/protobuf.rs:282-285 | the subject travels in an `Any` whose type URL is "Value.to_string()" |
| ProtoCodec.SubjectOf | vc_signing/src/protobuf.rs:186-188 | a missing subject fails |
| ProtoCodec.SubjectIgnoresTypeUrl | vc_signing/src/protobuf.rs:186 | reading the subject back ignores the type URL |
| ProtoCodec.SubjectRoundTrip | vc_signing/src/protobuf.rs:186-188 | the subject survives the trip under lawful codecs |
| ProtoCodec.ProofOf | vc_signing/src/protobuf.rs:197-206 | a proof without `created` fails; otherwise the text fields are kept |
| ProtoCodec.ProofMessageOf | vc_signing/src/protobuf.rs:329-334 | the message always sets `created`, and converts back to the same proof |
| ProtoCodec.OptionalProof | vc_signing/src/protobuf.rs:197-206 | an absent proof is None; a present one converts as ProofOf does |
| ProtoCodec.ProofRoundTrip | vc_signing/src/protobuf.rs:197-206 | an optional proof survives the trip |
| ProtoCodec.CredentialMessageOf | vc_signing/src/protobuf.rs:235-351 | the message keeps the context in order, which optional fields are set, the issuer text, the name and the description, and always sets type, schema and subject |
| ProtoCodec.CredentialOf | vc_signing/src/protobuf.rs:111-233 | a converted message keeps the name and the description, and every URL text it held (each context entry, `vc_id`, `issuer`) prints back as that text; it converts only when every schema id and status id is a URL |
| ProtoCodec.ContextRoundTrip | vc_signing/src/protobuf.rs:113-117 | the context survives the trip |
| ProtoCodec.CredentialOfParts | vc_signing/src/protobuf.rs:111-233 | when every field converts, the message converts to the credential they make |
| ProtoCodec.CredentialRoundTrip | vc_signing/src/protobuf.rs:111-351 | a credential encoded to its message and converted back is itself |
| ProtoCodec.MissingPartsFail | vc_signing/src/protobuf.rs:119-216 | a message without type, schema or subject never converts |
| ProtoCodec.MalformedUrlFails | vc_signing/src/protobuf.rs:113-225 | a context entry, `vc_id`, `issuer`, schema id or status id that is not a URL makes the conversion fail |
| ProtoCodec.CredentialsOf | vc_signing/src/protobuf.rs:34-43 | a missing credential list fails; otherwise the arm and the length are kept |
| ProtoCodec.CredentialChoiceOf | vc_signing/src/protobuf.rs:81-90 | one credential stays single and a list keeps its length |
| ProtoCodec.CredentialsRoundTrip | vc_signing/src/protobuf.rs:81-90 | one credential or several survive the trip |
| ProtoCodec.PresentationMessageOf | vc_signing/src/protobuf.rs:68-109 | which optional fields are set is kept, and type and credentials are always set |
| ProtoCodec.PresentationOf | vc_signing/src/protobuf.rs:20-66 | a non-URL `vp_id` fails first with its text; then "vp_type" missing or "Error in presentation type"; missing credentials fail; on success `vp_id` and `holder` print back as the texts they were |
| ProtoCodec.MalformedPresentationUrlFails | vc_signing/src/protobuf.rs:22-45 | a `vp_id` or `holder` that is not a URL makes the conversion fail |
| ProtoCodec.PresentationRoundTrip | vc_signing/src/protobuf.rs:20-109 | a presentation survives the trip |
| Github.Marker | get_github_schema/src/lib.rs:57-73 | the first "/blob/", or only without one the first "/tree/"; None exactly when neither occurs |
| Github.ConstructGithubApiUrl | get_github_schema/src/lib.rs:53-85 | "Invalid GitHub URL" without a host; the missing-marker text; a slicing panic when the marker precedes the repository start; the missing-path text |
| Github.AcceptedLayout | get_github_schema/src/lib.rs:53-85 | an accepted URL is prefix, "github.com/", repo, marker, branch without '/', "/", path, cut at the first occurrences, and the result is built from those parts |
| Github.BlobUrl | get_github_schema/src/lib.rs:57-63 | a blob URL gives the contents-API URL of its repository, branch and path |
| Github.TreeUrl | get_github_schema/src/lib.rs:64-70 | a tree URL with no "/blob/" gives the same |

## Left out

- The HTTP fetches, `GITHUB_TOKEN` and the YAML parsing of `get_schema` (get_github_schema/src/lib.rs:8-50) are I/O. Only the URL construction is modelled.
- Randomness is an input. The PKCS#8 document `generate_pkcs8` produces and the UUIDs of `create` and of the builder are parameters. So is the clock: `Utc::now()` is the `now` parameter.
- A failure of `generate_pkcs8` itself is not modelled, because the generator is an input.
- The wasm-target `VerifiableCredential::new` (verifiable_credential.rs:133-194) is not modelled. Its `create = true` arm runs its own closure (verifiable_credential.rs:145-163), which differs from the native `create` closure (verifiable_credential.rs:231-249): it decodes the subject with `from_value(input)?` (line 160), which can fail, where the native one stores `input` as given (line 246). Its `false` arm decodes like the native `new`.
- Json: numbers are integers only. serde_json's floating-point numbers are not modelled, because the core never computes with a number.
- Primitives.FromTimestamp: two cases of chrono's `from_timestamp` are not modelled. A leap-second nanosecond value in [1e9, 2e9) is accepted by chrono when the second is the 59th of its minute; the model rejects it. A second outside chrono's year range (about 262,000 years either side of year 0) is rejected by chrono; the model accepts it.
- ProtoCodec.DateTimeOf: the same two gaps, since it converts through `from_timestamp`.
- Wasm.NewPresentation: a `JsValue` is modelled as `Json`, and `serde_wasm_bindgen::from_value` (wasm.rs:107, 151-154) is taken to decode it by the same rules as serde_json, `deny_unknown_fields` included.
- Wasm.NewCredential: the same: both `JsValue` arguments are taken as `Json` decoded by serde_json's rules.
- `to_object`, the CBOR functions and the command-line programs are not part of this model.
- `Url` normalisation is not modelled: a `Url` prints as the text it was parsed from. Only the scheme check decides what parses.
- Urls.Parse: a different check from the url crate's, wrong in both directions. It is weaker, because only the scheme is checked, so some texts the crate rejects parse here. It is also stricter, because the crate first trims leading and trailing C0 controls and spaces and drops every tab, CR and LF, and the model does not. So the model rejects text such as " https://example.com" or "ht\ttps://example.com", which the crate accepts. The same gap reaches every URL field read through Serde.DecodeUrl or ProtoCodec.UrlOf.
- ProtoCodec.TimestampOf: the trip through `to_rfc3339` and `Timestamp::from_str` is taken as exact. chrono's year range is not modelled, so no date fails there.
- Signing.Verified: also the wasm target's `verify`. There, a base64 failure surfaces from inside the `verify` call. The model checks base64 before the signature, which gives the same outcome.
- The error texts of serde, ring and valico are not modelled word for word. Each is one constructor of `DecodeFailure` or `Error`. Nor is which fault is reported first when an input has several. The model reports the shape fault first (a non-object, or an unknown key), then checks the fields in declaration order. serde reports faults in the order the keys appear, and missing fields last.
- Builder.BuildDescribed: shows one chain of calls, with a single extra context. It is not a general statement about every chain.

Where the code and the design intent differ, the model follows the code, with one exception:

- Signing serialises the document with whatever proof it carries. The intended canonical bytes have the proof cleared. This is the finding below. `Signing.SignedAsWritten` models the code as written, and `Signing.SignUnsignedThenVerify` and `Signing.ResignAsWrittenFails` state what it does. Everything else that signs (`Signing.Signable.Sign` and the per-target signing lemmas) uses the corrected `Signing.Signed`. For a document without a proof the two agree, so for such a document those lemmas also hold of the code as written.
- Untagged decoding also reads a struct from a JSON array, by position (`SerdeLaws.PairIsOneSchema`).
- The three proof shapes differ by target, with no discriminator between them.
- The wasm presentation reports "VC is unsigned".
- The protobuf conversions panic rather than return errors. They are modelled as `ProtoFailure` values.

## Findings

| source | as written | input that shows it | evidently intended | confidence | as-written member | corrected member |
|---|---|---|---|---|---|---|
| vc_signing/src/native.rs:114 (also verifiable_credential.rs:201, verifiable_presentation.rs:41, wasm.rs:112, wasm.rs:172) | `sign` serialises `self` with its current proof, but `verify` serialises the clone after taking the proof out | any document that already carries a proof, signed again with a valid key | the signed bytes are the document with its proof cleared, as `verify` rebuilds them | not executed | Signing.SignedAsWritten, Signing.SignUnsignedThenVerify, Signing.ResignAsWrittenFails | Signing.Signed, Signing.SignThenVerify, Signing.Signable.Sign, Native.SignedProof, Native.GeneratedKeysVerify, Credential.SignedProof, Credential.SignThenVerifyCredential, Credential.SignedSchemaIsUsed, Presentation.SignThenVerifyPresentation, Wasm.SignThenVerifyJws, Wasm.GeneratedKeysVerify |
