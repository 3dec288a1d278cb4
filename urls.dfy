/** URLs as the `url` crate hands them to the crate: a parsed `Url` prints as its text and
    re-parses to itself.  Parsing is modelled by the check every absolute URL without
    surrounding whitespace must pass (section 3.1 of RFC 3986: a scheme of a letter followed
    by letters, digits, "+", "-" or ".", then ":"); the crate's normalisation of the text is
    not modelled, so a `Url` is its own canonical text.  The crate first trims leading and
    trailing C0 controls and spaces and drops every tab, CR and LF; the model does not, so
    it rejects such text. */
module Urls {
  import opened Base
  import opened Strings

  predicate IsAlpha(c: char) { 'a' <= c <= 'z' || 'A' <= c <= 'Z' }

  predicate IsSchemeChar(c: char) {
    IsAlpha(c) || '0' <= c <= '9' || c == '+' || c == '-' || c == '.'
  }

  predicate IsUrl(s: string) {
    match Find(s, ":")
    case None => false
    case Some(i) => 0 < i && IsAlpha(s[0]) && forall j :: 0 < j < i ==> IsSchemeChar(s[j])
  }

  const UrnUuidPrefix := "urn:uuid:"

  /** The W3C credentials context every created credential starts with. */
  const CredentialsV2 := "https://www.w3.org/ns/credentials/v2"

  /** The JSON Schema draft 2020-12 meta-schema: the root of trust of `schema_check`. */
  const MetaSchemaId := "https://json-schema.org/draft/2020-12/schema"

  /** A text whose first ":" at index `i` ends a well-formed scheme is a URL. */
  lemma SchemeIsUrl(s: string, i: nat)
    requires 0 < i < |s| && s[i] == ':' && IsAlpha(s[0])
    requires forall j :: 0 < j < i ==> IsSchemeChar(s[j])
    ensures IsUrl(s)
  {
    assert s == s[..i] + [':'] + s[i + 1..];
    FindFirst(s[..i], s[i + 1..], ':');
  }

  /** The shortest URL the check admits. */
  lemma UrnIsUrl()
    ensures IsUrl("urn:")
  {
    SchemeIsUrl("urn:", 3);
  }

  type Url = s: string | IsUrl(s) witness (UrnIsUrl(); "urn:")

  /** `Url::parse`: the model's parse succeeds exactly on text that passes the scheme check. */
  function Parse(s: string): (r: Option<Url>)
    ensures r.Some? <==> IsUrl(s)
    ensures r.Some? ==> ToString(r.value) == s
  {
    if IsUrl(s) then Some(s) else None
  }

  /** `Url::to_string`. */
  function ToString(u: Url): string { u }

  /** `urn:uuid:<anything>` always parses: the `?` after each `urn:uuid:` parse in the
      crate never fires. */
  lemma UrnUuidParses(uuid: string)
    ensures Parse(UrnUuidPrefix + uuid).Some?
  {
    SchemeIsUrl(UrnUuidPrefix + uuid, 3);
  }

  lemma CredentialsV2Parses()
    ensures Parse(CredentialsV2).Some?
  {
    SchemeIsUrl(CredentialsV2, 5);
  }

  lemma MetaSchemaIdParses()
    ensures Parse(MetaSchemaId).Some?
  {
    SchemeIsUrl(MetaSchemaId, 5);
  }

  /** Printing then parsing gives the same URL back. */
  lemma ParsePrinted(u: Url)
    ensures Parse(ToString(u)) == Some(u)
  {
  }
}
