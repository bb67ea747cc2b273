/** The gateway's configuration and its rule-based event filter.

    A configuration carries a Brigade project id and an ordered list of
    filter rules. An event is accepted by the first rule that decides it: the
    rule's namespace and kind must match (an empty field matches anything)
    and its reason list must be empty or contain the event's reason. A rule
    whose reasons do not match falls through to the next rule. When no rule
    decides, the event is rejected. */
module Filters {
  import opened Wrappers

  /** The object a Kubernetes event is about (`InvolvedObject`). */
  datatype ObjectReference = ObjectReference(kind: string, namespace: string, name: string)

  /** A Kubernetes core event, as far as the gateway looks at it; `raw` is
      its serialised form, which the gateway forwards without reading. */
  datatype Event = Event(involvedObject: ObjectReference, reason: string, raw: seq<byte>)

  /** One filter rule; `action` is free text, only "accept" accepts. */
  datatype Filter = Filter(namespace: string, kind: string, reasons: seq<string>, action: string)

  datatype Config = Config(project: string, filters: seq<Filter>)

  /** The configuration used when no configuration file is given. */
  const EmptyConfig := Config("", [])

  /** The action a deciding rule yields. */
  predicate Pass(f: Filter) {
    f.action == "accept"
  }

  /** The namespace and kind of the rule admit the event (no mismatch). */
  predicate InScope(f: Filter, e: Event) {
    (f.namespace == "" || f.namespace == e.involvedObject.namespace) &&
    (f.kind == "" || f.kind == e.involvedObject.kind)
  }

  /** The rule decides the event: it is in scope and it either lists no
      reasons or lists the event's reason. */
  predicate Decides(f: Filter, e: Event) {
    InScope(f, e) && (|f.reasons| == 0 || e.reason in f.reasons)
  }

  /** The filter's verdict over `filters`, rule by rule, as the loop of the
      source walks them: skip a rule on a namespace or kind mismatch, let a
      rule without reasons decide, let a rule decide when one of its reasons
      matches, and otherwise go on; reject when the rules run out. */
  function Accepts(filters: seq<Filter>, e: Event): bool
  {
    if filters == [] then false
    else
      var f := filters[0];
      if !InScope(f, e) then Accepts(filters[1..], e)
      else if |f.reasons| == 0 then Pass(f)
      else if e.reason in f.reasons then Pass(f)
      else Accepts(filters[1..], e)
  }

  /** `i` is the position of the first rule of `filters` that decides `e`. */
  ghost predicate FirstDecisive(filters: seq<Filter>, e: Event, i: int) {
    0 <= i < |filters| && Decides(filters[i], e) &&
    forall j :: 0 <= j < i ==> !Decides(filters[j], e)
  }

  /** Default reject: when no rule decides the event, it is rejected. */
  lemma {:induction false} DefaultReject(filters: seq<Filter>, e: Event)
    requires forall i :: 0 <= i < |filters| ==> !Decides(filters[i], e)
    ensures !Accepts(filters, e)
  {
    if filters != [] {
      assert !Decides(filters[0], e);
      DefaultReject(filters[1..], e);
    }
  }

  /** With an empty rule list (the configuration used when no file is
      given) every event is rejected. */
  lemma EmptyConfigRejectsAll(e: Event)
    ensures !Accepts(EmptyConfig.filters, e)
  {
  }

  /** First decisive rule: the verdict is the action of the first rule that
      decides the event. */
  lemma {:induction false} FirstDecisiveRuleWins(filters: seq<Filter>, e: Event, i: int)
    requires FirstDecisive(filters, e, i)
    ensures Accepts(filters, e) == Pass(filters[i])
  {
    if i > 0 {
      assert !Decides(filters[0], e);
      assert FirstDecisive(filters[1..], e, i - 1) by {
        forall j | 0 <= j < i - 1 ensures !Decides(filters[1..][j], e) {
          assert filters[1..][j] == filters[j + 1];
        }
      }
      FirstDecisiveRuleWins(filters[1..], e, i - 1);
    }
  }

  /** Some rule decides the event, so there is a first one. */
  lemma {:induction false} FirstDecisiveExists(filters: seq<Filter>, e: Event, k: int)
    requires 0 <= k < |filters| && Decides(filters[k], e)
    ensures exists i :: FirstDecisive(filters, e, i)
  {
    if forall j :: 0 <= j < k ==> !Decides(filters[j], e) {
      assert FirstDecisive(filters, e, k);
    } else {
      var j :| 0 <= j < k && Decides(filters[j], e);
      FirstDecisiveExists(filters, e, j);
    }
  }

  /** The whole decision, both directions: an event is accepted exactly when
      some rule decides it and the first such rule's action is "accept". */
  lemma {:induction false} AcceptsIffFirstDecisiveAccepts(filters: seq<Filter>, e: Event)
    ensures Accepts(filters, e) <==>
      exists i :: FirstDecisive(filters, e, i) && filters[i].action == "accept"
  {
    if Accepts(filters, e) {
      if forall k :: 0 <= k < |filters| ==> !Decides(filters[k], e) {
        DefaultReject(filters, e);
      }
      var k :| 0 <= k < |filters| && Decides(filters[k], e);
      FirstDecisiveExists(filters, e, k);
      var i :| FirstDecisive(filters, e, i);
      FirstDecisiveRuleWins(filters, e, i);
    } else {
      forall i | FirstDecisive(filters, e, i) ensures filters[i].action != "accept" {
        FirstDecisiveRuleWins(filters, e, i);
      }
    }
  }

  /** Action mapping: a deciding rule whose action is anything but the exact
      string "accept" ("reject", an unknown word, a different case) rejects. */
  lemma NonAcceptActionRejects(filters: seq<Filter>, e: Event, i: int)
    requires FirstDecisive(filters, e, i) && filters[i].action != "accept"
    ensures !Accepts(filters, e)
  {
    FirstDecisiveRuleWins(filters, e, i);
  }

  /** Fall-through: a rule with reasons, none of them the event's, does not
      decide; the verdict is that of the rules after it. */
  lemma ReasonMismatchFallsThrough(f: Filter, rest: seq<Filter>, e: Event)
    requires |f.reasons| > 0 && e.reason !in f.reasons
    ensures Accepts([f] + rest, e) == Accepts(rest, e)
  {
    assert ([f] + rest)[1..] == rest;
  }

  /** A namespace or kind mismatch skips the rule whatever its action is. */
  lemma OutOfScopeRuleSkipped(f: Filter, rest: seq<Filter>, e: Event)
    requires !InScope(f, e)
    ensures Accepts([f] + rest, e) == Accepts(rest, e)
  {
    assert ([f] + rest)[1..] == rest;
  }

  /** Rule order: the rules after a block of rules matter only when no rule
      of the block decides the event. */
  lemma {:induction false} AcceptsAppend(front: seq<Filter>, back: seq<Filter>, e: Event)
    ensures Accepts(front + back, e) ==
      if exists i :: 0 <= i < |front| && Decides(front[i], e)
      then Accepts(front, e) else Accepts(back, e)
  {
    if front == [] {
      assert front + back == back;
    } else {
      assert (front + back)[0] == front[0];
      assert (front + back)[1..] == front[1..] + back;
      AcceptsAppend(front[1..], back, e);
      if Decides(front[0], e) {
        assert 0 < |front|;
      } else {
        assert (exists i :: 0 <= i < |front| && Decides(front[i], e)) <==>
               (exists i :: 0 <= i < |front[1..]| && Decides(front[1..][i], e)) by {
          if i :| 0 <= i < |front| && Decides(front[i], e) {
            assert i > 0 && front[1..][i - 1] == front[i];
          }
          if i :| 0 <= i < |front[1..]| && Decides(front[1..][i], e) {
            assert front[i + 1] == front[1..][i];
          }
        }
      }
    }
  }

  /** A catch-all rule (empty namespace, kind and reasons) decides every event
      that reaches it: the rules behind it are never consulted. */
  lemma CatchAllShadowsLaterRules(front: seq<Filter>, f: Filter, back: seq<Filter>, e: Event)
    requires f.namespace == "" && f.kind == "" && f.reasons == []
    ensures Accepts(front + [f] + back, e) == Accepts(front + [f], e)
  {
    assert front + [f] + back == (front + [f]) + back;
    assert Decides((front + [f])[|front|], e);
    AcceptsAppend(front + [f], back, e);
  }

  /** The example of a Pod rule list: reject Pod/Killing, accept other Pod
      events. */
  lemma PodKillingExample()
    ensures
      var rules := [Filter("", "Pod", ["Killing"], "reject"), Filter("", "Pod", [], "accept")];
      var pod := ObjectReference("Pod", "default", "web-0");
      !Accepts(rules, Event(pod, "Killing", [])) && Accepts(rules, Event(pod, "Started", []))
  {
  }

  /** The literal namespace "*" is not a wildcard in the code: it matches only
      a namespace that is itself named "*". */
  lemma StarNamespaceIsLiteral(rest: seq<Filter>, e: Event)
    requires e.involvedObject.namespace != "*"
    ensures Accepts([Filter("*", "", [], "accept")] + rest, e) == Accepts(rest, e)
  {
    OutOfScopeRuleSkipped(Filter("*", "", [], "accept"), rest, e);
  }
}
