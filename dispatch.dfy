/** What the gateway does with one event key: the outcome of `sync` and of
    `createSecret`, as pure functions of the collaborators' answers.

    The local cache's lookup, the store's answers (GetProject, CreateBuild)
    and the HTTP client's reply are inputs. An outcome is the returned error
    together with the calls made to the store and the HTTP client, in order. */
module Dispatch {
  import opened Wrappers
  import opened Filters
  import Script

  /** The fixed provider tag of builds this gateway creates. */
  const Provider := "k8s-gateway"
  /** The fixed revision reference of those builds. */
  const DefaultRef := "refs/heads/master"
  /** The commit the brigade.js script is fetched at. */
  const ScriptCommit := "master"

  datatype Repo = Repo(name: string)
  datatype Project = Project(repo: Repo)

  /** A Brigade build request. */
  datatype Build = Build(
    projectID: string,
    typ: string,
    provider: string,
    revisionRef: string,
    payload: seq<byte>,
    script: seq<byte>)

  /** What the cache's `GetByKey` reports for a key. */
  datatype Lookup = LookupFailed(err: Error) | NotFound | Found(event: Event)

  /** The answers of the downstream store and of the HTTP client during the
      processing of one event. */
  datatype Replies = Replies(
    project: Result<Project, Error>,
    fetch: Script.HttpReply,
    create: Option<Error>)

  /** A call to a collaborator, as the gateway makes it. */
  datatype Call = GetProject(id: string) | FetchScript(url: string) | CreateBuild(build: Build)

  /** The error returned for a key, and the collaborator calls made. */
  datatype Outcome = Outcome(err: Option<Error>, calls: seq<Call>)

  /** The build type, "<kind>:<reason>". */
  function BuildType(kind: string, reason: string): string {
    kind + ":" + reason
  }

  /** Splits a build type at its first colon. */
  function SplitType(t: string): Option<(string, string)> {
    match Script.IndexOf(t, ":")
    case None => None
    case Some(i) => Some((t[..i], t[i + 1..]))
  }

  /** A build type names its kind and reason unambiguously as long as the
      kind has no colon (Kubernetes kinds never do). */
  lemma TypeRoundTrip(kind: string, reason: string)
    requires ':' !in kind
    ensures SplitType(BuildType(kind, reason)) == Some((kind, reason))
  {
    var t := BuildType(kind, reason);
    assert Script.OccursAt(t, ":", |kind|) by {
      assert t[|kind|..|kind| + 1] == [':'];
    }
    forall j | 0 <= j < |kind| ensures !Script.OccursAt(t, ":", j) {
      assert t[j] == kind[j];
      assert t[j..j + 1] == [t[j]];
    }
    assert Script.IndexOf(t, ":") == Some(|kind|);
    assert t[..|kind|] == kind;
    assert t[|kind| + 1..] == reason;
  }

  /** A colon in the kind makes build types collide. */
  lemma TypeAmbiguousWithColonKind()
    ensures BuildType("a:b", "c") == BuildType("a", "b:c")
  {
  }

  /** The build an accepted event becomes, before its script is attached. */
  function NewBuild(config: Config, e: Event): Build {
    Build(config.project, BuildType(e.involvedObject.kind, e.reason), Provider, DefaultRef, e.raw, [])
  }

  /** The fetch of the project's script, given the project the store returned. */
  function FetchFor(proj: Project, reply: Script.HttpReply): Script.Fetched {
    Script.GithubBrigadeJS(proj.repo.name, ScriptCommit, reply)
  }

  /** createSecret: look up the configured project, fetch its script, submit
      the build; the first failure ends the attempt and is returned. */
  function CreateSecret(config: Config, e: Event, r: Replies): (o: Outcome)
    // GetProject comes first, and a failure there ends the attempt.
    ensures 1 <= |o.calls| <= 3 && o.calls[0] == GetProject(config.project)
    ensures r.project.Err? ==> o == Outcome(Some(r.project.error), [GetProject(config.project)])
    // The script fetch comes second, at the project's URL.
    ensures r.project.Ok? ==>
      |o.calls| >= 2 &&
      o.calls[1] == FetchScript(Script.ScriptUrl(r.project.value.repo.name, ScriptCommit))
    // A fetch failure ends the attempt before any build is submitted.
    ensures r.project.Ok? && FetchFor(r.project.value, r.fetch).err.Some? ==>
      o.err == FetchFor(r.project.value, r.fetch).err && |o.calls| == 2
    // CreateBuild is called exactly when both earlier steps succeed ...
    ensures (exists i :: 0 <= i < |o.calls| && o.calls[i].CreateBuild?) <==>
      r.project.Ok? && FetchFor(r.project.value, r.fetch).err.None?
    // ... it is the last call, its error is the result, and the build carries
    // the configured project, "<kind>:<reason>", the fixed provider and ref,
    // the event and the fetched script.
    ensures o.calls[|o.calls| - 1].CreateBuild? ==>
      var b := o.calls[|o.calls| - 1].build;
      o.err == r.create &&
      b.projectID == config.project &&
      b.typ == e.involvedObject.kind + ":" + e.reason &&
      b.provider == "k8s-gateway" &&
      b.revisionRef == "refs/heads/master" &&
      b.payload == e.raw &&
      b.script == FetchFor(r.project.value, r.fetch).script
  {
    var b := NewBuild(config, e);
    match r.project
    case Err(err) => Outcome(Some(err), [GetProject(config.project)])
    case Ok(proj) =>
      var fetched := FetchFor(proj, r.fetch);
      var sofar := [GetProject(config.project), FetchScript(Script.ScriptUrl(proj.repo.name, ScriptCommit))];
      if fetched.err.Some? then Outcome(fetched.err, sofar)
      else
        var o := Outcome(r.create, sofar + [CreateBuild(b.(script := fetched.script))]);
        assert o.calls[2].CreateBuild?;
        o
  }

  /** sync: look the key up, consult the filter, and hand accepted events to
      createSecret. */
  function Sync(config: Config, lookup: Lookup, r: Replies): (o: Outcome)
    // The store is touched only for an event that is found and accepted ...
    ensures o.calls != [] <==> lookup.Found? && Accepts(config.filters, lookup.event)
    // ... and then sync's result is exactly createSecret's.
    ensures o.calls != [] ==> o == CreateSecret(config, lookup.event, r)
    // Otherwise a lookup error comes back unchanged; a cache miss and a
    // rejected event are successes.
    ensures o.calls == [] ==> o.err == if lookup.LookupFailed? then Some(lookup.err) else None
  {
    match lookup
    case LookupFailed(err) => Outcome(Some(err), [])
    case NotFound => Outcome(None, [])
    case Found(e) =>
      if !Accepts(config.filters, e) then Outcome(None, [])
      else CreateSecret(config, e, r)
  }

  /** With the configuration used when no file is given, no event ever
      reaches the store: the gateway builds nothing. */
  lemma EmptyConfigBuildsNothing(lookup: Lookup, r: Replies)
    ensures Sync(EmptyConfig, lookup, r).calls == []
    ensures Sync(EmptyConfig, lookup, r).err.Some? <==> lookup.LookupFailed?
  {
  }
}
