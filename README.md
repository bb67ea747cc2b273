# k8s-gateway: a verified model of the event gateway's reconciliation step

The Brigade Kubernetes gateway watches core Kubernetes events in a namespace,
puts each event's key on a rate-limited work queue, and for every key it takes
off the queue decides what to do:

- it looks the key up in the informer's local cache;
- it runs the event through an ordered list of accept/reject filter rules;
- for an accepted event it asks the Brigade store for the configured project,
  fetches that project's `brigade.js` from GitHub's raw-content host, and
  submits a build;
- it then applies a retry budget: forget the key on success, requeue it while
  it has been requeued fewer than 5 times, otherwise drop it.

This project models that decision in Dafny and proves what it does.

- `wrappers.dfy` (module `Wrappers`): `Option`, `Result`, the `Error` values
  passed around, and the `byte` type of opaque payloads.
- `filters.dfy` (module `Filters`): events, filter rules, the configuration,
  and the filter's verdict `Accepts`. Lemmas cover the default reject, the
  first deciding rule, the action mapping, fall-through on unmatched reasons,
  skipping on a namespace or kind mismatch, and rule order.
- `script.dfy` (module `Script`): the first-occurrence removal of
  `github.com/`, the raw-content URL, and the script fetch given the HTTP
  client's reply.
- `dispatch.dfy` (module `Dispatch`): `sync` and `createSecret` as pure
  functions. Each returns the error together with the ordered calls made to the
  store and the HTTP client. Their contracts state which calls happen, in what
  order, what is returned, and what the submitted build holds.
- `retry.dfy` (module `Retry`): the `handleErr` branch as a decision over the
  requeue counter. Lemmas cover a key processed repeatedly: the counter counts
  requeues since the last forget, there are at most 5 requeues between two
  forgets, a drop comes only after a full budget, and success resets.
- `queue.dfy` (module `Queue`): an abstract work queue class with a shutdown
  flag, ready keys, the processing set and per-key requeue counters.
- `gateway.dfy` (module `Controller`): the `Gateway` class. It has the
  configuration, the queue, the cache and a log of collaborator calls. Its
  methods `AcceptEvent` (the source's nested loop), `CreateSecret`, `Sync`,
  `HandleErr` and `ProcessNextItem` are proved against the pure definitions
  above.

The collaborators are inputs:
- the cache is a map from key to lookup result, and a missing key is "not
  found";
- the store's `GetProject` and `CreateBuild` answers and the HTTP reply are
  passed in as `Replies`.

## Model

| member | source | states |
|---|---|---|
| `Filters.DefaultReject` | cmd/k8s-gateway/main.go:210-234 | when no rule decides an event (none is in scope with no reasons or a matching reason), the event is rejected |
| `Filters.EmptyConfigRejectsAll` | cmd/k8s-gateway/main.go:52-61 | the configuration used when no file is given (no rules) rejects every event |
| `Filters.FirstDecisiveRuleWins` | cmd/k8s-gateway/main.go:210-231 | the verdict is the action of the first rule that decides the event; the rules before it do not matter |
| `Filters.AcceptsIffFirstDecisiveAccepts` | cmd/k8s-gateway/main.go:209-235 | both directions: an event is accepted exactly when a rule decides it and the first such rule's action is "accept" |
| `Filters.NonAcceptActionRejects` | cmd/k8s-gateway/main.go:338-340 | a deciding rule whose action is "reject" or any other string than exactly "accept" rejects |
| `Filters.ReasonMismatchFallsThrough` | cmd/k8s-gateway/main.go:224-230 | a rule with reasons, none equal to the event's reason, does not decide; the verdict is that of the later rules |
| `Filters.OutOfScopeRuleSkipped` | cmd/k8s-gateway/main.go:212-219 | a rule whose non-empty namespace or kind differs from the event's is skipped whatever its action |
| `Filters.AcceptsAppend` | cmd/k8s-gateway/main.go:210-231 | rule order: rules after a block matter only when no rule of the block decides the event |
| `Filters.CatchAllShadowsLaterRules` | cmd/k8s-gateway/main.go:220-223 | a rule with empty namespace, kind and reasons decides every event that reaches it, so the rules after it are never consulted |
| `Filters.PodKillingExample` | cmd/k8s-gateway/main.go:210-231 | the rules [Pod/Killing reject, Pod accept] reject Pod/Killing and accept Pod/Started |
| `Filters.StarNamespaceIsLiteral` | cmd/k8s-gateway/main.go:328-331 | a rule with namespace "*" is skipped for every event not in a namespace literally named "*" |
| `Controller.Gateway.AcceptEvent` | cmd/k8s-gateway/main.go:209-235 | the nested rule/reason loop with early returns computes exactly the verdict `Filters.Accepts` |
| `Script.IndexOf` | cmd/k8s-gateway/main.go:271 | returns the first index where the pattern occurs (no earlier occurrence), or none when it occurs nowhere |
| `Script.RemoveFirstInverse` | cmd/k8s-gateway/main.go:271 | removal deletes exactly one copy of the pattern at its first occurrence (putting it back restores the name); a name without it is unchanged |
| `Script.RemoveLeading` | cmd/k8s-gateway/main.go:271 | a name starting with the pattern loses exactly that leading copy |
| `Script.ScriptUrlOfGithubName` | cmd/k8s-gateway/main.go:270-272 | "github.com/<path>" at commit c is fetched from "https://raw.githubusercontent.com/<path>/<c>/brigade.js" |
| `Script.ScriptUrlOfBareName` | cmd/k8s-gateway/main.go:271-272 | a name without "github.com/" is placed in the URL unchanged |
| `Script.OnlyFirstPrefixRemoved` | cmd/k8s-gateway/main.go:271 | a doubled "github.com/github.com/" prefix keeps its second copy in the URL |
| `Script.GithubBrigadeJS` | cmd/k8s-gateway/main.go:269-285 | the fetch succeeds exactly on a 200 reply whose body was read, and then yields the body; a transport error or a non-200 status yields an error with empty bytes, and the status error names the script URL |
| `Dispatch.TypeRoundTrip` | cmd/k8s-gateway/main.go:238 | the build type "<kind>:<reason>" splits back at its first colon into the kind and reason when the kind has no colon |
| `Dispatch.TypeAmbiguousWithColonKind` | cmd/k8s-gateway/main.go:238 | a colon in the kind makes two different kind/reason pairs share a build type |
| `Dispatch.CreateSecret` | cmd/k8s-gateway/main.go:237-267 | GetProject is called first and its failure is returned before any fetch; the fetch of the project's URL is second and its failure is returned before CreateBuild; CreateBuild is called exactly when both succeed and its error is the result; the build has the configured project, type kind + ":" + reason, provider "k8s-gateway", ref "refs/heads/master", the event payload and the fetched script |
| `Dispatch.Sync` | cmd/k8s-gateway/main.go:186-206 | the store is called exactly for an event that is found and accepted, and then the result is createSecret's; otherwise a lookup error is returned unchanged, and a cache miss or a rejected event returns no error |
| `Dispatch.EmptyConfigBuildsNothing` | cmd/k8s-gateway/main.go:49-61 | with no configuration file no key ever reaches the store; only lookup errors are reported |
| `Retry.CounterCountsRequeues` | cmd/k8s-gateway/main.go:287-305 | after any run of processings, a key's requeue counter equals the number of requeues since it was last forgotten and never exceeds 5 |
| `Retry.RetryBudget` | cmd/k8s-gateway/main.go:296-304 | between two forgets, a key is re-enqueued at most 5 times |
| `Retry.DropFollowsFullBudget` | cmd/k8s-gateway/main.go:296-304 | a key is dropped only on a failure that follows exactly 5 requeues since it was last forgotten |
| `Retry.SuccessForgets` | cmd/k8s-gateway/main.go:288-293 | a successful processing forgets the key and resets its counter to 0, whatever came before |
| `Retry.FailuresWithinBudget` | cmd/k8s-gateway/main.go:296-300 | a fresh key failing up to 5 times in a row is requeued every time and its counter is the number of failures |
| `Retry.SixthFailureDrops` | cmd/k8s-gateway/main.go:296-304 | six failures in a row: five requeues, then the key is forgotten and dropped |
| `Retry.FourFailuresThenSuccess` | cmd/k8s-gateway/main.go:287-305 | four failures and then a success: four requeues, then the counter is back to 0 |
| `Queue.WorkQueue.constructor` | cmd/k8s-gateway/main.go:107 | a new queue is not shut down and holds no keys or counters |
| `Queue.WorkQueue.Add` | cmd/k8s-gateway/main.go:175-179 | the key becomes ready; nothing else changes |
| `Queue.WorkQueue.Get` | cmd/k8s-gateway/main.go:147-150 | reports shutdown exactly when the queue is shut down, changing nothing; otherwise hands out the first ready key and marks it processing |
| `Queue.WorkQueue.Done` | cmd/k8s-gateway/main.go:151 | the key leaves the processing set; nothing else changes |
| `Queue.WorkQueue.Forget` | cmd/k8s-gateway/main.go:292 | the key's requeue counter becomes 0; no other key's counter changes |
| `Queue.WorkQueue.AddRateLimited` | cmd/k8s-gateway/main.go:298 | the key's counter goes up by one and the key is ready again; no other key's counter changes |
| `Queue.WorkQueue.ShutDown` | cmd/k8s-gateway/main.go:118-121 | the queue is shut down; its keys and counters are unchanged |
| `Controller.Gateway.constructor` | cmd/k8s-gateway/main.go:76-80 | a gateway holds the given configuration, queue and cache, and has made no collaborator calls |
| `Controller.Gateway.CreateSecret` | cmd/k8s-gateway/main.go:237-267 | makes exactly the calls of `Dispatch.CreateSecret`, in its order, and returns its error |
| `Controller.Gateway.Sync` | cmd/k8s-gateway/main.go:186-206 | for the cache's answer for the key, makes exactly the calls of `Dispatch.Sync` and returns its error; the cache is not written |
| `Controller.Gateway.HandleErr` | cmd/k8s-gateway/main.go:287-305 | success forgets the key; a failure with counter below 5 increments it and requeues the key; otherwise the key is forgotten and dropped; no other key's counter, the processing set and the shutdown flag are untouched |
| `Controller.Gateway.ProcessNextItem` | cmd/k8s-gateway/main.go:146-156 | returns false exactly when the queue is shut down, and then calls nothing and changes nothing; otherwise it syncs the first ready key, applies handleErr's decision to its counter and readiness, always marks the key done, and returns true |

## Left out

- Process setup (cmd/k8s-gateway/main.go:38-90, 307-316): flag parsing, the `GATEWAY_NAMESPACE` and `GATEWAY_CONFIG` lookups, and clientset construction are startup I/O.
- Configuration loading (cmd/k8s-gateway/main.go:52-61): reading and JSON-decoding the file is file I/O; the `Config` is a given value, and `Filters.EmptyConfig` is the one used when no file is named.
- The watch side (cmd/k8s-gateway/main.go:113-139, 158-184): the informer, the list/watch functions, key computation and cache sync belong to the Kubernetes client library. The cache is the `indexer` map, and the add handler is `WorkQueue.Add`.
- Worker goroutines (cmd/k8s-gateway/main.go:117-144): `Run`, `wait.Until` and `runWorker`'s loop `for processNextItem() {}` are concurrency with no bound on their iterations. Their single step, `ProcessNextItem`, is modelled.
- Queue internals (cmd/k8s-gateway/main.go:107): the library queue's coalescing of duplicate keys, its in-flight exclusivity, its exponential backoff, and the blocking wait in `Get`. `Queue.WorkQueue.Get` requires a ready key or a shut-down queue, which is the moment the real `Get` returns.
- Queue.WorkQueue.Get: reports shutdown as soon as the flag is set. The library's `Get` may still hand out keys that are already queued; that library code is not part of this model.
- Queue.WorkQueue.AddRateLimited: makes the key ready at once; the backoff delay before it becomes ready is not modelled.
- Network and serialisation (cmd/k8s-gateway/main.go:199, 241, 274-284): `http.Get` and reading the body are replaced by the `HttpReply` input. The event's JSON is the opaque `raw` bytes of `Event`; the source ignores marshalling errors, and so does the model.
- Script.GithubBrigadeJS: the status error carries the URL and the numeric status code, not the formatted message text with the status line.
- Logging and the error sink `utilruntime.HandleError` (throughout) have no effect on the decision.
- Reads of the local cache are not recorded in `calls`; only calls to the store and the HTTP client are.

## Source versus its own documentation

- The `-config` flag's help text (cmd/k8s-gateway/main.go:49) promises that without a file "you get to drink from the fire hose". The code does the opposite: the empty configuration has no rules, and with no deciding rule the code rejects (cmd/k8s-gateway/main.go:232-234). The model follows the code. `Filters.EmptyConfigRejectsAll` and `Dispatch.EmptyConfigBuildsNothing` state the consequence: nothing is ever built.
- The comment on `Filter.Namespace` (cmd/k8s-gateway/main.go:329-330) says that "*" matches all namespaces. The code treats only the empty string as a wildcard (cmd/k8s-gateway/main.go:212). The model follows the code; `Filters.StarNamespaceIsLiteral` shows that a "*" rule is skipped.
- The retry budget is sometimes described as "dropped after five consecutive failures". The code requeues while the counter is below 5, so a fresh key is requeued on its first five failures and dropped on the sixth (`Retry.SixthFailureDrops`). The model follows the code.
