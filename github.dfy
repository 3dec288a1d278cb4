/** get_github_schema/src/lib.rs, `construct_github_api_url`: turns a github.com page URL
    of a file ("…github.com/{repo}/blob/{branch}/{path}", or "/tree/") into the GitHub
    contents-API URL for it.  The HTTP fetches around it are not modelled. */
module Github {
  import opened Base
  import opened Strings

  const Host := "github.com/"
  const Blob := "/blob/"
  const Tree := "/tree/"

  /** The function's `Err` texts, and the panic of slicing with an end before its start. */
  datatype GithubError = Invalid(message: string) | SlicePanic

  function ApiUrl(repo: string, branch: string, path: string): string {
    "https://api.github.com/repos/" + repo + "/contents/" + path + "?ref=" + branch
  }

  /** Where the repository name ends and the branch begins: at the first "/blob/", or, only
      when there is none, at the first "/tree/". */
  function Marker(url: string): (r: Option<(nat, nat)>)
    ensures r.Some? ==> r.value.0 + 6 == r.value.1 <= |url|
    ensures r.None? <==> Find(url, Blob).None? && Find(url, Tree).None?
  {
    match Find(url, Blob)
    case Some(b) => Some((b, b + |Blob|))
    case None =>
      match Find(url, Tree)
      case Some(t) => Some((t, t + |Tree|))
      case None => None
  }

  function ConstructGithubApiUrl(url: string): (r: Result<string, GithubError>)
    ensures Find(url, Host).None? ==> r == Err(Invalid("Invalid GitHub URL"))
    ensures Find(url, Host).Some? && Find(url, Blob).None? && Find(url, Tree).None? ==>
              r == Err(Invalid("Invalid GitHub URL: missing '/blob/' or '/tree/'"))
    ensures Find(url, Host).Some? && Marker(url).Some? && Marker(url).value.0 < Find(url, Host).value + |Host| ==>
              r == Err(SlicePanic)
    ensures Find(url, Host).Some? && Marker(url).Some? && Marker(url).value.0 >= Find(url, Host).value + |Host|
            && Find(url[Marker(url).value.1..], "/").None? ==>
              r == Err(Invalid("Invalid GitHub URL: missing file path"))
  {
    var host :- OkOr(Find(url, Host), Invalid("Invalid GitHub URL"));
    var repoStart := host + |Host|;
    var marker :- OkOr(Marker(url), Invalid("Invalid GitHub URL: missing '/blob/' or '/tree/'"));
    if marker.0 < repoStart then Err(SlicePanic)
    else
      var repo := url[repoStart..marker.0];
      var branchAndPath := url[marker.1..];
      var slash :- OkOr(Find(branchAndPath, "/"), Invalid("Invalid GitHub URL: missing file path"));
      Ok(ApiUrl(repo, branchAndPath[..slash], branchAndPath[slash + 1..]))
  }

  /** The layout the function assumes: the repository between "github.com/" and the
      marker, a branch without '/', and the path after it. */
  predicate Layout(url: string, prefix: string, repo: string, marker: string, branch: string, path: string) {
    url == prefix + Host + repo + marker + branch + "/" + path
    && (marker == Blob || marker == Tree)
    && '/' !in branch
  }

  /** Every URL the function accepts has that layout, cut at the first "github.com/", at the
      first "/blob/" whenever there is one, and at the first '/' after the marker; the
      result is built from exactly those parts. */
  lemma AcceptedLayout(url: string)
    requires ConstructGithubApiUrl(url).Ok?
    ensures var host := Find(url, Host).value;
            var m := Marker(url).value;
            var rest := url[m.1..];
            var slash := Find(rest, "/").value;
            var repo, marker, branch, path := url[host + |Host|..m.0], url[m.0..m.1], rest[..slash], rest[slash + 1..];
            Layout(url, url[..host], repo, marker, branch, path)
            && (Find(url, Blob).Some? ==> marker == Blob)
            && ConstructGithubApiUrl(url) == Ok(ApiUrl(repo, branch, path))
  {
    var host := Find(url, Host).value;
    var m := Marker(url).value;
    var rest := url[m.1..];
    var slash := Find(rest, "/").value;
    Construction(url, host, m.0, slash);
    HostAt(url, host);
    MarkerText(url);
    SlashSplit(rest, slash);
    LayoutAt(url, host, m.0, m.1, rest, slash);
  }

  /** The cuts at the host, the marker and the slash give the layout. */
  lemma LayoutAt(url: string, host: nat, k: nat, e: nat, rest: string, slash: nat)
    requires host + |Host| <= k <= e <= |url| && rest == url[e..] && slash < |rest|
    requires url[host..host + |Host|] == Host
    requires url[k..e] == Blob || url[k..e] == Tree
    requires rest == rest[..slash] + "/" + rest[slash + 1..] && '/' !in rest[..slash]
    ensures Layout(url, url[..host], url[host + |Host|..k], url[k..e], rest[..slash], rest[slash + 1..])
  {
    SplitAt(url, host, host + |Host|, k, e);
    Assemble(url, url[..host], url[host..host + |Host|], url[host + |Host|..k], url[k..e], rest,
             rest[..slash], rest[slash + 1..]);
  }

  /** The first "github.com/" is where `Find` says. */
  lemma HostAt(url: string, host: nat)
    requires Find(url, Host) == Some(host)
    ensures url[host..host + |Host|] == Host
  {
    FindLeast(url, Host);
  }

  /** The marker is "/blob/" or "/tree/", and "/blob/" whenever the URL holds one. */
  lemma MarkerText(url: string)
    requires Marker(url).Some?
    ensures var m := Marker(url).value; url[m.0..m.1] == Blob || url[m.0..m.1] == Tree
    ensures Find(url, Blob).Some? ==> url[Marker(url).value.0..Marker(url).value.1] == Blob
  {
    FindLeast(url, Blob);
    FindLeast(url, Tree);
  }

  lemma Assemble(url: string, prefix: string, host: string, repo: string, marker: string,
                 rest: string, branch: string, path: string)
    requires url == prefix + host + repo + marker + rest && host == Host
    requires rest == branch + "/" + path
    ensures url == prefix + Host + repo + marker + branch + "/" + path
  {
  }

  lemma SplitAt(url: string, a: nat, b: nat, c: nat, d: nat)
    requires a <= b <= c <= d <= |url|
    ensures url == url[..a] + url[a..b] + url[b..c] + url[c..d] + url[d..]
  {
  }

  /** Cutting at the first '/' leaves a branch without one. */
  lemma SlashSplit(rest: string, slash: nat)
    requires Find(rest, "/") == Some(slash)
    ensures rest == rest[..slash] + "/" + rest[slash + 1..]
    ensures '/' !in rest[..slash]
  {
    FindLeast(rest, "/");
    assert rest[slash..slash + 1] == "/";
    forall j | 0 <= j < slash ensures rest[j] != '/' {
      assert !OccursAt(rest, "/", j);
      assert rest[j..j + 1] == [rest[j]];
    }
  }

  /** The first occurrence in a text is also the first once more text follows. */
  lemma FindExtends(a: string, rest: string, pattern: string)
    requires Find(a, pattern).Some?
    ensures Find(a + rest, pattern) == Find(a, pattern)
  {
    var i := Find(a, pattern).value;
    var s := a + rest;
    FindLeast(a, pattern);
    assert s[..|a|] == a;
    assert OccursAt(s, pattern, i) by {
      assert s[i..i + |pattern|] == a[i..i + |pattern|];
    }
    forall j | 0 <= j < i ensures !OccursAt(s, pattern, j) {
      assert !OccursAt(a, pattern, j);
      assert s[j..j + |pattern|] == a[j..j + |pattern|];
    }
    FindIs(s, pattern, i);
  }

  /** A file's "blob" page URL gives the contents-API URL of that file on that branch,
      when the host and the marker are their first occurrences. */
  lemma BlobUrl(prefix: string, repo: string, branch: string, path: string)
    requires Find(prefix + Host, Host) == Some(|prefix|)
    requires Find(prefix + Host + repo + Blob, Blob) == Some(|prefix + Host + repo|)
    requires '/' !in branch
    ensures ConstructGithubApiUrl(prefix + Host + repo + Blob + branch + "/" + path) == Ok(ApiUrl(repo, branch, path))
  {
    Located(prefix, repo, Blob, branch, path);
  }

  /** The same for a "tree" URL with no "/blob/" anywhere in it. */
  lemma TreeUrl(prefix: string, repo: string, branch: string, path: string)
    requires Find(prefix + Host, Host) == Some(|prefix|)
    requires Find(prefix + Host + repo + Tree, Tree) == Some(|prefix + Host + repo|)
    requires Find(prefix + Host + repo + Tree + branch + "/" + path, Blob).None?
    requires '/' !in branch
    ensures ConstructGithubApiUrl(prefix + Host + repo + Tree + branch + "/" + path) == Ok(ApiUrl(repo, branch, path))
  {
    Located(prefix, repo, Tree, branch, path);
  }

  /** `Marker` at a known first occurrence. */
  lemma MarkerAt(url: string, k: nat, marker: string)
    requires marker == Blob || marker == Tree
    requires marker == Blob ==> Find(url, Blob) == Some(k)
    requires marker == Tree ==> Find(url, Blob).None? && Find(url, Tree) == Some(k)
    ensures Marker(url) == Some((k, k + 6))
  {
  }

  /** The pieces of `a + repo + marker + rest` at their offsets. */
  lemma Pieces(a: string, repo: string, marker: string, rest: string)
    requires |marker| == 6
    ensures var url := a + repo + marker + rest;
            url[|a|..|a| + |repo|] == repo && url[|a| + |repo| + 6..] == rest
  {
    var url := a + repo + marker + rest;
    assert url[|a|..|a| + |repo|] == repo;
    assert url[|a| + |repo| + 6..] == rest;
  }

  /** Cutting "branch/path" at its first '/'. */
  lemma BranchAndPath(branch: string, path: string)
    requires '/' !in branch
    ensures var rest := branch + "/" + path;
            Find(rest, "/") == Some(|branch|) && rest[..|branch|] == branch && rest[|branch| + 1..] == path
  {
    FindFirst(branch, path, '/');
    var rest := branch + "/" + path;
    assert rest == branch + ['/'] + path;
    assert rest[..|branch|] == branch;
    assert rest[|branch| + 1..] == path;
  }

  /** `ConstructGithubApiUrl` once the host, marker and slash positions are known. */
  lemma Construction(url: string, host: nat, k: nat, slash: nat)
    requires Find(url, Host) == Some(host) && Marker(url) == Some((k, k + 6)) && host + |Host| <= k
    requires Find(url[k + 6..], "/") == Some(slash)
    ensures ConstructGithubApiUrl(url)
            == Ok(ApiUrl(url[host + |Host|..k], url[k + 6..][..slash], url[k + 6..][slash + 1..]))
  {
  }

  lemma Located(prefix: string, repo: string, marker: string, branch: string, path: string)
    requires marker == Blob || marker == Tree
    requires Find(prefix + Host, Host) == Some(|prefix|)
    requires Find(prefix + Host + repo + marker, marker) == Some(|prefix + Host + repo|)
    requires marker == Tree ==> Find(prefix + Host + repo + marker + branch + "/" + path, Blob).None?
    requires '/' !in branch
    ensures ConstructGithubApiUrl(prefix + Host + repo + marker + branch + "/" + path) == Ok(ApiUrl(repo, branch, path))
  {
    var url := prefix + Host + repo + marker + branch + "/" + path;
    LocatedAt(url, prefix + Host, repo, marker, branch + "/" + path, branch, path);
  }

  lemma LocatedAt(url: string, a: string, repo: string, marker: string, rest: string, branch: string, path: string)
    requires url == a + repo + marker + rest && rest == branch + "/" + path && |a| >= |Host|
    requires marker == Blob || marker == Tree
    requires Find(a, Host) == Some(|a| - |Host|)
    requires Find(a + repo + marker, marker) == Some(|a| + |repo|)
    requires marker == Tree ==> Find(url, Blob).None?
    requires '/' !in branch
    ensures ConstructGithubApiUrl(url) == Ok(ApiUrl(repo, branch, path))
  {
    Joined(url, a, repo, marker, rest);
    FindExtends(a, repo + marker + rest, Host);
    FindExtends(a + repo + marker, rest, marker);
    MarkerAt(url, |a| + |repo|, marker);
    Pieces(a, repo, marker, rest);
    BranchAndPath(branch, path);
    Construction(url, |a| - |Host|, |a| + |repo|, |branch|);
  }

  lemma Joined(url: string, a: string, repo: string, marker: string, rest: string)
    requires url == a + repo + marker + rest
    ensures url == a + (repo + marker + rest) && url == (a + repo + marker) + rest
  {
  }
}
