/** The gateway: per-key processing over its configuration, the informer's
    local cache (the indexer), the work queue, and the downstream store and
    HTTP client, whose answers are passed in as `Replies`. The calls made to
    the store and the HTTP client are recorded, in order, in `calls`. */
module Controller {
  import opened Wrappers
  import opened Filters
  import opened Queue
  import Dispatch
  import Retry
  import Script

  class Gateway {
    const config: Config
    const queue: WorkQueue
    /** The informer's cache; the gateway only reads it. */
    var indexer: map<Key, Dispatch.Lookup>
    /** Calls made to the store and the HTTP client so far. */
    var calls: seq<Dispatch.Call>

    constructor (config: Config, queue: WorkQueue, indexer: map<Key, Dispatch.Lookup>)
      ensures this.config == config && this.queue == queue && this.indexer == indexer
      ensures calls == []
    {
      this.config := config;
      this.queue := queue;
      this.indexer := indexer;
      calls := [];
    }

    /** The cache's answer for `key`; a key it does not hold is not found. */
    function GetByKey(key: Key): Dispatch.Lookup
      reads this
    {
      if key in indexer then indexer[key] else Dispatch.NotFound
    }

    /** acceptEvent: walk the rules in order; the first rule in scope that
        has no reasons, or lists the event's reason, decides. */
    method AcceptEvent(e: Event) returns (accept: bool)
      ensures accept == Accepts(config.filters, e)
    {
      var filters := config.filters;
      for i := 0 to |filters|
        invariant Accepts(filters[i..], e) == Accepts(filters, e)
      {
        assert filters[i..][1..] == filters[i + 1..];
        var f := filters[i];
        var pass := f.action == "accept";
        if f.namespace != "" && e.involvedObject.namespace != f.namespace {
          continue;
        }
        if f.kind != "" && e.involvedObject.kind != f.kind {
          continue;
        }
        if |f.reasons| == 0 {
          return pass;
        }
        for j := 0 to |f.reasons|
          invariant forall k :: 0 <= k < j ==> f.reasons[k] != e.reason
        {
          if f.reasons[j] == e.reason {
            return pass;
          }
        }
      }
      assert filters[|filters|..] == [];
      return false;
    }

    /** createSecret: GetProject, then the script fetch, then CreateBuild;
        the first failure is returned. */
    method CreateSecret(e: Event, r: Dispatch.Replies) returns (err: Option<Error>)
      modifies this`calls
      ensures calls == old(calls) + Dispatch.CreateSecret(config, e, r).calls
      ensures err == Dispatch.CreateSecret(config, e, r).err
    {
      var b := Dispatch.NewBuild(config, e);
      calls := calls + [Dispatch.GetProject(config.project)];
      if r.project.Err? {
        return Some(r.project.error);
      }
      var proj := r.project.value;
      calls := calls + [Dispatch.FetchScript(Script.ScriptUrl(proj.repo.name, Dispatch.ScriptCommit))];
      var fetched := Script.GithubBrigadeJS(proj.repo.name, Dispatch.ScriptCommit, r.fetch);
      if fetched.err.Some? {
        return fetched.err;
      }
      b := b.(script := fetched.script);
      calls := calls + [Dispatch.CreateBuild(b)];
      return r.create;
    }

    /** sync: look the key up; an error is returned, a miss and a rejected
        event are successes, and an accepted event goes to createSecret. */
    method Sync(key: Key, r: Dispatch.Replies) returns (err: Option<Error>)
      modifies this`calls
      ensures calls == old(calls) + Dispatch.Sync(config, GetByKey(key), r).calls
      ensures err == Dispatch.Sync(config, GetByKey(key), r).err
    {
      var lookup := GetByKey(key);
      match lookup
      case LookupFailed(x) =>
        return Some(x);
      case NotFound =>
        return None;
      case Found(e) =>
        var accepted := AcceptEvent(e);
        if !accepted {
          return None;
        }
        err := CreateSecret(e, r);
    }

    /** handleErr: forget the key on success, requeue it while its requeue
        count is below 5, otherwise forget and drop it. */
    method HandleErr(err: Option<Error>, key: Key)
      modifies queue
      ensures
        var n := old(queue.NumRequeues(key));
        var d := Retry.Decide(err.Some?, n);
        queue.NumRequeues(key) == Retry.After(n, d) &&
        queue.ready == old(queue.ready) + (if d == Retry.Requeued then [key] else [])
      ensures forall k :: k != key ==> queue.NumRequeues(k) == old(queue.NumRequeues(k))
      ensures queue.processing == old(queue.processing)
      ensures queue.shuttingDown == old(queue.shuttingDown)
    {
      if err.None? {
        queue.Forget(key);
        return;
      }
      if queue.NumRequeues(key) < Retry.MaxRequeues {
        queue.AddRateLimited(key);
        return;
      }
      queue.Forget(key);
    }

    /** processNextItem: take a key, sync it, apply the retry policy, and
        mark the key done; report false, doing nothing else, once the queue
        is shut down. */
    method ProcessNextItem(r: Dispatch.Replies) returns (more: bool)
      requires queue.shuttingDown || |queue.ready| > 0
      modifies this`calls, queue
      ensures more == !old(queue.shuttingDown)
      ensures !more ==>
        calls == old(calls) && queue.ready == old(queue.ready) &&
        queue.processing == old(queue.processing) && queue.failures == old(queue.failures)
      ensures more ==>
        var key := old(queue.ready[0]);
        var o := Dispatch.Sync(config, GetByKey(key), r);
        var n := old(queue.NumRequeues(key));
        var d := Retry.Decide(o.err.Some?, n);
        calls == old(calls) + o.calls &&
        key !in queue.processing && queue.processing == old(queue.processing) - {key} &&
        queue.ready == old(queue.ready[1..]) + (if d == Retry.Requeued then [key] else []) &&
        queue.NumRequeues(key) == Retry.After(n, d)
      ensures more ==> forall k :: k != old(queue.ready[0]) ==>
        queue.NumRequeues(k) == old(queue.NumRequeues(k))
      ensures queue.shuttingDown == old(queue.shuttingDown)
    {
      var key, shutdown := queue.Get();
      if shutdown {
        return false;
      }
      var err := Sync(key, r);
      HandleErr(err, key);
      queue.Done(key);
      return true;
    }
  }
}
