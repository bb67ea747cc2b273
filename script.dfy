/** Fetching a project's brigade.js from GitHub's raw-content host.

    The project's repository name has its first "github.com/" removed and is
    placed, with the commit, into a raw.githubusercontent.com URL. The HTTP
    exchange itself is a collaborator: its reply is an input here. A transport
    error or a status other than 200 is a failure with an empty script. */
module Script {
  import opened Wrappers

  const RawHost := "https://raw.githubusercontent.com/"
  const GithubPrefix := "github.com/"
  const ScriptFile := "/brigade.js"
  const StatusOK := 200

  /** `pat` occurs in `s` starting at index `j`. */
  predicate OccursAt(s: string, pat: string, j: int) {
    0 <= j && j + |pat| <= |s| && s[j..j + |pat|] == pat
  }

  /** The index of the first occurrence of `pat` in `s`, if any. */
  function IndexOf(s: string, pat: string): (r: Option<nat>)
    ensures r.Some? ==> OccursAt(s, pat, r.value)
    ensures r.Some? ==> forall j :: 0 <= j < r.value ==> !OccursAt(s, pat, j)
    ensures r.None? ==> forall j :: 0 <= j ==> !OccursAt(s, pat, j)
    decreases |s|
  {
    if |s| < |pat| then None
    else if s[..|pat|] == pat then Some(0)
    else
      var rest := IndexOf(s[1..], pat);
      assert !OccursAt(s, pat, 0);
      assert forall j :: 0 <= j ==> (OccursAt(s[1..], pat, j) <==> OccursAt(s, pat, j + 1)) by {
        forall j | 0 <= j ensures OccursAt(s[1..], pat, j) <==> OccursAt(s, pat, j + 1) {
          ShiftOccurrence(s, pat, j);
        }
      }
      assert forall j :: 1 <= j ==> OccursAt(s, pat, j) == OccursAt(s[1..], pat, j - 1) by {
        forall j | 1 <= j ensures OccursAt(s, pat, j) == OccursAt(s[1..], pat, j - 1) {
          ShiftOccurrence(s, pat, j - 1);
        }
      }
      match rest
      case None => None
      case Some(i) => Some(i + 1)
  }

  /** An occurrence in `s[1..]` at `j` is an occurrence in `s` at `j + 1`. */
  lemma ShiftOccurrence(s: string, pat: string, j: nat)
    requires |s| > 0
    ensures OccursAt(s[1..], pat, j) <==> OccursAt(s, pat, j + 1)
  {
    if j + 1 + |pat| <= |s| {
      assert s[1..][j..j + |pat|] == s[j + 1..j + 1 + |pat|];
    }
  }

  /** `s` with its first occurrence of `pat` deleted (Go's
      `strings.Replace(s, pat, "", 1)`). */
  function RemoveFirst(s: string, pat: string): string
  {
    match IndexOf(s, pat)
    case None => s
    case Some(i) => s[..i] + s[i + |pat|..]
  }

  /** Removal is undone by putting `pat` back where it was first found; when
      `pat` does not occur the string is left alone. */
  lemma RemoveFirstInverse(s: string, pat: string)
    ensures IndexOf(s, pat).None? ==> RemoveFirst(s, pat) == s
    ensures IndexOf(s, pat).Some? ==>
      var i := IndexOf(s, pat).value;
      var r := RemoveFirst(s, pat);
      |r| == |s| - |pat| && r[..i] + pat + r[i..] == s
  {
    match IndexOf(s, pat)
    case None =>
    case Some(i) =>
      var r := RemoveFirst(s, pat);
      assert r[..i] == s[..i];
      assert r[i..] == s[i + |pat|..];
      assert s == s[..i] + s[i..i + |pat|] + s[i + |pat|..];
  }

  /** A string that starts with `pat` loses exactly that leading copy, even
      when `pat` occurs again later. */
  lemma RemoveLeading(pat: string, rest: string)
    ensures RemoveFirst(pat + rest, pat) == rest
  {
    assert (pat + rest)[..|pat|] == pat;
    assert (pat + rest)[|pat|..] == rest;
  }

  /** The raw-content URL of brigade.js for `project` at `commit`. */
  function ScriptUrl(project: string, commit: string): string {
    RawHost + RemoveFirst(project, GithubPrefix) + "/" + commit + ScriptFile
  }

  /** A repository named "github.com/<owner>/<repo>" is fetched from
      "<raw host><owner>/<repo>/<commit>/brigade.js". */
  lemma ScriptUrlOfGithubName(path: string, commit: string)
    ensures ScriptUrl(GithubPrefix + path, commit) == RawHost + path + "/" + commit + ScriptFile
  {
    RemoveLeading(GithubPrefix, path);
  }

  /** A repository name without "github.com/" is used as it is. */
  lemma ScriptUrlOfBareName(project: string, commit: string)
    requires forall j :: 0 <= j ==> !OccursAt(project, GithubPrefix, j)
    ensures ScriptUrl(project, commit) == RawHost + project + "/" + commit + ScriptFile
  {
  }

  /** Only the first "github.com/" goes: a doubled prefix keeps its second
      copy. */
  lemma OnlyFirstPrefixRemoved(path: string, commit: string)
    ensures ScriptUrl(GithubPrefix + GithubPrefix + path, commit) ==
      RawHost + GithubPrefix + path + "/" + commit + ScriptFile
  {
    assert GithubPrefix + GithubPrefix + path == GithubPrefix + (GithubPrefix + path);
    ScriptUrlOfGithubName(GithubPrefix + path, commit);
  }

  /** The HTTP client's answer to the GET of the script URL. */
  datatype HttpReply =
    | TransportFailure(message: string)
    | Response(status: int, body: seq<byte>, readError: Option<string>)

  /** The pair `(script, err)` the fetch returns. */
  datatype Fetched = Fetched(script: seq<byte>, err: Option<Error>)

  /** The script fetch, given the HTTP client's reply. */
  function GithubBrigadeJS(project: string, commit: string, reply: HttpReply): (f: Fetched)
    ensures f.err.None? <==> reply.Response? && reply.status == StatusOK && reply.readError.None?
    ensures f.err.None? ==> f.script == reply.body
    ensures reply.TransportFailure? ==> f == Fetched([], Some(Failed(reply.message)))
    ensures reply.Response? && reply.status != StatusOK ==>
      f == Fetched([], Some(BadStatus(ScriptUrl(project, commit), reply.status)))
  {
    match reply
    case TransportFailure(msg) => Fetched([], Some(Failed(msg)))
    case Response(status, body, readError) =>
      if status != StatusOK then Fetched([], Some(BadStatus(ScriptUrl(project, commit), status)))
      else
        match readError
        case None => Fetched(body, None)
        case Some(msg) => Fetched(body, Some(Failed(msg)))
  }
}
