/** The gateway's retry-budget policy (`handleErr`) over a key's requeue
    counter, and what it implies for a key processed over and over.

    After each processing of a key: success forgets the key (the counter
    goes back to 0); a failure while the counter is below 5 requeues the key
    with rate limiting (the counter goes up by one); a failure at 5 or more
    forgets the key and drops it. */
module Retry {

  const MaxRequeues := 5

  datatype Decision = Forgotten | Requeued | Dropped

  /** handleErr's branch, given whether processing failed and the key's
      current requeue count. */
  function Decide(failed: bool, requeues: nat): Decision {
    if !failed then Forgotten
    else if requeues < MaxRequeues then Requeued
    else Dropped
  }

  /** The key's requeue count after the decision: `AddRateLimited` adds one,
      `Forget` (on success and on a drop) resets it. */
  function After(requeues: nat, d: Decision): nat {
    if d == Requeued then requeues + 1 else 0
  }

  /** The requeue count of a fresh key after it was processed with the given
      results in turn (`true`: processing failed). */
  function Counter(results: seq<bool>): nat {
    if results == [] then 0
    else
      var c := Counter(results[..|results| - 1]);
      After(c, Decide(results[|results| - 1], c))
  }

  /** The decision handleErr takes after each of those processings. */
  function Decisions(results: seq<bool>): (ds: seq<Decision>)
    ensures |ds| == |results|
  {
    if results == [] then []
    else
      var front := results[..|results| - 1];
      Decisions(front) + [Decide(results[|results| - 1], Counter(front))]
  }

  /** How many requeues end the decision sequence, i.e. have happened since
      the key was last forgotten. */
  function TrailingRequeues(ds: seq<Decision>): nat {
    if ds == [] || ds[|ds| - 1] != Requeued then 0
    else TrailingRequeues(ds[..|ds| - 1]) + 1
  }

  /** The counter is the number of requeues since the last forget, and it
      never exceeds the budget. */
  lemma {:induction false} CounterCountsRequeues(results: seq<bool>)
    ensures Counter(results) == TrailingRequeues(Decisions(results))
    ensures Counter(results) <= MaxRequeues
  {
    if results != [] {
      var front := results[..|results| - 1];
      CounterCountsRequeues(front);
      var ds := Decisions(results);
      assert ds[..|ds| - 1] == Decisions(front);
    }
  }

  /** Decisions are taken one processing at a time: later results do not
      change earlier decisions. */
  lemma {:induction false} DecisionsPrefix(results: seq<bool>, k: nat)
    requires k <= |results|
    ensures Decisions(results[..k]) == Decisions(results)[..k]
  {
    CounterCountsRequeues(results);
    if k < |results| {
      var front := results[..|results| - 1];
      assert results[..k] == front[..k];
      DecisionsPrefix(front, k);
      CounterCountsRequeues(front);
    } else {
      assert results[..k] == results;
    }
  }

  /** A block of requeues at the end of a decision sequence is counted by
      TrailingRequeues. */
  lemma {:induction false} TrailingAtLeast(ds: seq<Decision>, i: nat)
    requires i <= |ds|
    requires forall k :: i <= k < |ds| ==> ds[k] == Requeued
    ensures TrailingRequeues(ds) >= |ds| - i
  {
    if i < |ds| {
      TrailingAtLeast(ds[..|ds| - 1], i);
    }
  }

  /** The retry budget: between two forgets a key is requeued at most five
      times in a row. */
  lemma RetryBudget(results: seq<bool>, i: nat, j: nat)
    requires i <= j <= |results|
    requires forall k :: i <= k < j ==> Decisions(results)[k] == Requeued
    ensures j - i <= MaxRequeues
  {
    DecisionsPrefix(results, j);
    var ds := Decisions(results[..j]);
    TrailingAtLeast(ds, i);
    CounterCountsRequeues(results[..j]);
  }

  /** The decision after the `k`-th processing depends on that result and
      on the counter left by the processings before it. */
  lemma DecisionAt(results: seq<bool>, k: nat)
    requires k < |results|
    ensures Decisions(results)[k] == Decide(results[k], Counter(results[..k]))
  {
    var upTo := results[..k + 1];
    assert upTo[..k] == results[..k];
    DecisionsPrefix(results, k + 1);
  }

  /** A key is dropped only after exactly five requeues in a row since it was
      last forgotten. */
  lemma DropFollowsFullBudget(results: seq<bool>, k: nat)
    requires k < |results|
    requires Decisions(results)[k] == Dropped
    ensures results[k]
    ensures TrailingRequeues(Decisions(results)[..k]) == MaxRequeues
  {
    DecisionAt(results, k);
    DecisionsPrefix(results, k);
    CounterCountsRequeues(results[..k]);
  }

  /** Success resets the counter whatever came before. */
  lemma SuccessForgets(results: seq<bool>)
    ensures Decisions(results + [false]) == Decisions(results) + [Forgotten]
    ensures Counter(results + [false]) == 0
  {
    assert (results + [false])[..|results|] == results;
  }

  /** `n` failures in a row. */
  function Failures(n: nat): (r: seq<bool>)
    ensures |r| == n && forall k :: 0 <= k < n ==> r[k]
  {
    seq(n, _ => true)
  }

  /** A fresh key that fails up to five times in a row is requeued every
      time, and its counter is the number of failures. */
  lemma {:induction false} FailuresWithinBudget(n: nat)
    requires n <= MaxRequeues
    ensures Counter(Failures(n)) == n
    ensures Decisions(Failures(n)) == seq(n, _ => Requeued)
  {
    if n > 0 {
      assert Failures(n)[..n - 1] == Failures(n - 1);
      FailuresWithinBudget(n - 1);
    }
  }

  /** Six failures in a row from a fresh key: five requeues, then the drop. */
  lemma SixthFailureDrops()
    ensures Decisions(Failures(6)) == seq(5, _ => Requeued) + [Dropped]
    ensures Counter(Failures(6)) == 0
  {
    assert Failures(6)[..5] == Failures(5);
    FailuresWithinBudget(5);
  }

  /** Four failures and then a success: four requeues, then the counter is
      reset. */
  lemma FourFailuresThenSuccess()
    ensures Decisions(Failures(4) + [false]) == seq(4, _ => Requeued) + [Forgotten]
    ensures Counter(Failures(4) + [false]) == 0
  {
    FailuresWithinBudget(4);
    SuccessForgets(Failures(4));
  }
}
