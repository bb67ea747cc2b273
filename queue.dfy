/** The rate-limited work queue the gateway pulls event keys from, reduced
    to the state the gateway's own decisions depend on: the shutdown flag,
    the keys ready to be handed out, the keys being processed and a per-key
    requeue counter. Coalescing of duplicate keys and backoff timing belong
    to the queue library and are not part of this model. */
module Queue {

  /** An event key ("<namespace>/<name>"). */
  type Key = string

  class WorkQueue {
    var shuttingDown: bool
    /** Keys waiting to be handed out, in order. */
    var ready: seq<Key>
    /** Keys handed out by Get and not yet marked Done. */
    var processing: set<Key>
    /** Requeue counters; a key without an entry has a count of 0. */
    var failures: map<Key, nat>

    /** The number of times `key` was requeued since it was last forgotten. */
    function NumRequeues(key: Key): nat
      reads this`failures
    {
      if key in failures then failures[key] else 0
    }

    constructor ()
      ensures !shuttingDown && ready == [] && processing == {} && failures == map[]
    {
      shuttingDown := false;
      ready := [];
      processing := {};
      failures := map[];
    }

    /** Make `key` ready (what the informer's add handler does). */
    method Add(key: Key)
      modifies this
      ensures ready == old(ready) + [key]
      ensures processing == old(processing) && failures == old(failures)
      ensures shuttingDown == old(shuttingDown)
    {
      ready := ready + [key];
    }

    /** Hand out the next ready key, or report that the queue is shut down.
        Get returns only once a key is ready or the queue is shut down; the
        wait itself is not modelled. */
    method Get() returns (key: Key, shutdown: bool)
      requires shuttingDown || |ready| > 0
      modifies this
      ensures shutdown == old(shuttingDown)
      ensures shutdown ==> ready == old(ready) && processing == old(processing)
      ensures !shutdown ==>
        key == old(ready)[0] && ready == old(ready)[1..] && processing == old(processing) + {key}
      ensures failures == old(failures) && shuttingDown == old(shuttingDown)
    {
      if shuttingDown {
        return "", true;
      }
      key := ready[0];
      ready := ready[1..];
      processing := processing + {key};
      shutdown := false;
    }

    /** Mark the processing of `key` finished. */
    method Done(key: Key)
      modifies this
      ensures processing == old(processing) - {key}
      ensures ready == old(ready) && failures == old(failures)
      ensures shuttingDown == old(shuttingDown)
    {
      processing := processing - {key};
    }

    /** Reset the requeue counter of `key`. */
    method Forget(key: Key)
      modifies this
      ensures NumRequeues(key) == 0
      ensures forall k :: k != key ==> NumRequeues(k) == old(NumRequeues(k))
      ensures ready == old(ready) && processing == old(processing)
      ensures shuttingDown == old(shuttingDown)
    {
      failures := failures - {key};
    }

    /** Requeue `key`, counting the requeue. */
    method AddRateLimited(key: Key)
      modifies this
      ensures NumRequeues(key) == old(NumRequeues(key)) + 1
      ensures forall k :: k != key ==> NumRequeues(k) == old(NumRequeues(k))
      ensures ready == old(ready) + [key] && processing == old(processing)
      ensures shuttingDown == old(shuttingDown)
    {
      failures := failures[key := NumRequeues(key) + 1];
      ready := ready + [key];
    }

    /** Shut the queue down: every later Get reports shutdown. */
    method ShutDown()
      modifies this
      ensures shuttingDown
      ensures ready == old(ready) && processing == old(processing) && failures == old(failures)
    {
      shuttingDown := true;
    }
  }
}
