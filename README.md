# Ramen e2e DR test core and drenv kubectl helpers, in Dafny

This project models three pieces of the Ramen disaster-recovery test tooling
and proves properties about them.

- **The DRPC wait loops** (`retry.dfy`, module `Retry`). These are the four
  loops the e2e DR actions use to wait on a DRPlacementControl (DRPC) on the
  hub cluster:
  - ready: Available and PeerReady met, progression Completed, and a last
    group sync time;
  - a target phase;
  - a target progression;
  - deletion.

  The module also models `conditionMet` and `getTargetCluster`, which picks
  the cluster to fail over or relocate to. The fetch and the cancellable
  sleep are oracles: a run is fixed by a finite trace of attempts, each the
  pair (fetch result, sleep result). Each wait is a `method` whose `while`
  loop follows the Go `for {}` pass by pass. Each is proved equal to one
  reference poller, `Poll`, which applies a per-pass decision (`Decide`) to
  every attempt and then leaves at the first pass that stops (`FirstStop`).
  The methods also count the fetches and sleeps made. Errors are structured:
  - a fetch error is returned unchanged;
  - a sleep error is wrapped in a context that records what the Go message
    prints.
- **The DR test driver** (`test_flow.dfy`, module `DRTest`).
  - `runTestFlow` is a straight-line method with six fail-fast subtests,
    proved equal to a recursive reference sequencer.
  - The `TestDR` setup has two fatal checks (no tests, channel failure), a
    single cleanup, and a loop that panics at the first test whose PVC spec,
    workload or deployer cannot be resolved. It is a `for` loop proved equal
    to a reference function.
- **The drenv kubectl argv builders** (`kubectl.dfy`, module `Kubectl`):
  - `_run`/`_watch`, `version`, `kustomize`, `label`, `annotate`, `watch`
    and `gather`;
  - each builder is a method that assembles the argument vector the way the
    Python does;
  - parse-back functions and round-trip lemmas show that the vector carries
    what was asked for.

`optional.dfy` holds the `Option` datatype. It stands for a Go pointer that
may be nil and for a Python argument that may be `None`.

## Model

| member | source | states |
|---|---|---|
| Retry.FindCondition | e2e/dractions/retry.go:56 | The result is the first condition of the requested type, or None exactly when no condition has that type |
| Retry.ConditionMet | e2e/dractions/retry.go:55-59 | Met exactly when the first condition of the type exists and its status is the string "True" |
| Retry.IsReady | e2e/dractions/retry.go:30-41 | A snapshot is ready if and only if the first Available and the first PeerReady conditions both have status "True", the progression is Completed, and a last group sync time is set |
| Retry.WaitDRPCReady | e2e/dractions/retry.go:18-53 | The loop's run equals the reference poller for the ready wait; one fetch per pass up to the exit; one sleep per pass that did not exit on its fetch |
| Retry.WaitDRPCPhase | e2e/dractions/retry.go:61-84 | The loop's run equals the reference poller for the phase wait, with the same fetch and sleep counts |
| Retry.WaitDRPCDeleted | e2e/dractions/retry.go:106-128 | The loop's run equals the reference poller for the deletion wait, with the same fetch and sleep counts |
| Retry.WaitDRPCProgression | e2e/dractions/retry.go:130-160 | The loop's run equals the reference poller for the progression wait, with the same fetch and sleep counts |
| Retry.FirstStopExit | e2e/dractions/retry.go:24-52 | The generic loop exits at pass k with e if and only if every earlier pass retried and pass k stopped with e |
| Retry.PollExit | e2e/dractions/retry.go:24-52 | A wait exits at attempt k with e if and only if every earlier attempt retried and attempt k stops with e |
| Retry.FirstStopPending | e2e/dractions/retry.go:24-52 | The generic loop is still waiting if and only if every pass retried |
| Retry.PollPending | e2e/dractions/retry.go:24-52 | A wait is still waiting at the end of the trace if and only if every attempt retried |
| Retry.SleepsPerPass | e2e/dractions/retry.go:47-51 | A run that exits at k slept k times, plus once more when the exit was a failed sleep |
| Retry.ReadyRetry | e2e/dractions/retry.go:25-51 | A ready pass retries if and only if it fetched a snapshot that is not ready and then slept |
| Retry.WaitReadySucceedsAt | e2e/dractions/retry.go:30-45 | The ready wait succeeds at k if and only if snapshot k alone has all four signals and every earlier pass fetched a snapshot that lacked one, and slept |
| Retry.ReadyTimeoutCarriesFlags | e2e/dractions/retry.go:47-50 | A failed sleep in the ready wait is reported with the four flags of that same pass's snapshot and the sleep's error |
| Retry.FirstStopBefore | e2e/dractions/retry.go:24-52 | The generic loop never runs past a pass that stops |
| Retry.NoRetryPastFetchError | e2e/dractions/retry.go:25-28 | The ready, phase and progression waits exit at or before their first fetch error |
| Retry.FetchErrorReturnedAsIs | e2e/dractions/retry.go:68-71 | A fetch error reached by retrying is the wait's error, unchanged, with no sleep after it |
| Retry.WaitPhaseSucceedsAt | e2e/dractions/retry.go:73-78 | The phase wait succeeds at k if and only if snapshot k has the target phase and every earlier pass fetched another phase and slept |
| Retry.WaitProgressionSucceedsAt | e2e/dractions/retry.go:148-153 | The progression wait succeeds at k if and only if snapshot k has the target progression and every earlier pass fetched another one and slept |
| Retry.TimeoutNamesTarget | e2e/dractions/retry.go:80-82 | A timed-out phase or progression wait reports the value it waited for, the DRPC's name and the hub, while the last snapshot held a different value |
| Retry.WaitDeletedSucceedsAt | e2e/dractions/retry.go:113-122 | The deletion wait succeeds at k if and only if fetch k is a not-found error and every earlier pass got a snapshot or another error, and slept |
| Retry.WaitDeletedFailsOnlyOnSleep | e2e/dractions/retry.go:112-127 | The deletion wait never returns a fetch error; it fails only on a failed sleep, wrapped with the DRPC's name and the hub |
| Retry.ReadinessNeedsOneSnapshot | e2e/dractions/retry.go:30-41 | Readiness signals spread over two snapshots do not end the wait; one snapshot with all four does |
| Retry.DeletionAfterTwoErrors | e2e/dractions/retry.go:113-125 | Two server errors then a not-found: the deletion wait succeeds at the third attempt after two sleeps |
| Retry.GetTargetCluster | e2e/dractions/retry.go:86-104 | A lookup error is returned with an empty name; otherwise the target is a policy member: the second entry when the current cluster is the first, else the first. The precondition is exactly what keeps both index expressions in range |
| Retry.TargetClusterSwapsMembers | e2e/dractions/retry.go:96-101 | For two distinct clusters, the target is the other member, and selecting again gives the current cluster back |
| Retry.TargetClusterOfNonMember | e2e/dractions/retry.go:96-101 | A current cluster outside the policy gets the first entry, and the round trip does not come back to it |
| DRTest.RunStep | e2e/dr_test.go:69-71 | One subtest at place k after steps 0..k-1 passed: it passes if and only if the step does; a pass extends the passed prefix; a failure leaves exactly what the reference flow records |
| DRTest.AllPassedRecorded | e2e/dr_test.go:69-91 | After a passed prefix, the reference flow records that prefix followed by the failing step, or the prefix alone when all six passed |
| DRTest.RunTestFlow | e2e/dr_test.go:62-92 | The report of the straight-line flow equals the reference flow: skipped with the validation error, or the fail-fast run of the six steps |
| DRTest.FailFastShape | e2e/dr_test.go:69-91 | The subtests that ran are the next steps of the order with their own results; all but the last passed; the run ends early only after a failure |
| DRTest.FailFastStopsAt | e2e/dr_test.go:69-91 | When step k is the first failure, exactly steps i..k ran and step k is the only failed one |
| DRTest.StepsRunInOrder | e2e/dr_test.go:69-91 | The steps that ran are a non-empty prefix of Deploy, Enable, Failover, Relocate, Disable, Undeploy |
| DRTest.OrderDistinct | e2e/dr_test.go:69-91 | No step appears twice in the fixed order |
| DRTest.StepsRunOnce | e2e/dr_test.go:69-91 | No step runs twice in one scenario |
| DRTest.FailureStopsFlow | e2e/dr_test.go:69-91 | A first failure at step i: i + 1 subtests ran, the verdict is a failure at step i, step i is the only failure, and no later step ran |
| DRTest.PassesIffAllStepsPass | e2e/dr_test.go:69-91 | The scenario passes if and only if all six steps pass, and then all six ran in order |
| DRTest.SkippedIffValidationFails | e2e/dr_test.go:65-67 | The scenario is skipped if and only if validation fails, and then no step runs |
| DRTest.EnableFailureStopsFlow | e2e/dr_test.go:69-75 | A failing Enable after a passing Deploy: exactly those two subtests ran |
| DRTest.CheckTest | e2e/dr_test.go:38-51 | A test resolves if and only if its PVC spec, workload and deployer are all known. An unknown PVC spec panics with the fixed unknown-spec reason; a known spec with an unknown workload panics with the workload factory's refusal of that kind; a known spec and workload with an unknown deployer with the deployer factory's refusal of that kind |
| DRTest.ResolveFrom | e2e/dr_test.go:37-59 | The scenario loop either panics at a test in range or starts one scenario per test, in order |
| DRTest.TestDR | e2e/dr_test.go:16-60 | The setup equals the reference setup: fatal checks, one cleanup, then the scenario loop |
| DRTest.SetupFatalChecks | e2e/dr_test.go:20-33 | No tests ends the run before the channel is touched; a channel failure ends it before the cleanup; otherwise exactly one cleanup is registered |
| DRTest.ResolveFromPanics | e2e/dr_test.go:37-51 | The loop panics at k with a reason if and only if test k fails with that reason and every earlier test resolved |
| DRTest.PanicAtFirstUnresolved | e2e/dr_test.go:37-51 | Setup panics at the first unresolvable test, which ends the whole run rather than one scenario |
| DRTest.ResolveFromStarts | e2e/dr_test.go:37-59 | The loop starts its scenarios if and only if every remaining test resolves |
| DRTest.StartedIffAllResolve | e2e/dr_test.go:37-59 | Scenarios start if and only if every test resolves, with one scenario per configured test in order |
| Kubectl.CommandLine | test/drenv/kubectl.py:226-229 | The argv starts with kubectl and the verb. `--context CTX` follows only for a truthy context, and the arguments come last, unchanged; the length is fixed accordingly |
| Kubectl.BuildCommand | test/drenv/kubectl.py:225-237 | The argv is kubectl, the verb, `--context CTX` when the context is truthy, then the arguments |
| Kubectl.CommandLineRoundTrip | test/drenv/kubectl.py:225-229 | The context is read back from the argv exactly when it was truthy, and the arguments are read back unchanged |
| Kubectl.Version | test/drenv/kubectl.py:13-26 | The argv carries `--output` only for a truthy format; the error is raised again, unchanged, if and only if it carries no truthy output; otherwise that output is returned |
| Kubectl.Kustomize | test/drenv/kubectl.py:50-58 | The restrictor flag appears only when given and before the source; the source is last; no context |
| Kubectl.Label | test/drenv/kubectl.py:86-95 | The resource and label follow the verb, and `--overwrite` comes last only when asked |
| Kubectl.AnnotationArg | test/drenv/kubectl.py:117-120 | For a key without `=`, the argument for one entry reads back as the entry: a truthy value as set, None or the empty string as removal |
| Kubectl.ParseSetArg | test/drenv/kubectl.py:117-118 | A `key=value` argument reads back as setting key to value |
| Kubectl.ParseRemoveArg | test/drenv/kubectl.py:119-120 | A `key-` argument reads back as removing key |
| Kubectl.AnnotationArgsRoundTrip | test/drenv/kubectl.py:116-120 | Each argument of an annotate call, in dict order, reads back as its own entry |
| Kubectl.Annotate | test/drenv/kubectl.py:98-127 | The resource, then the entry arguments in dict order, then `--overwrite` when asked, then `--namespace NS` when truthy, with the context after the verb |
| Kubectl.WithNewline | test/drenv/kubectl.py:177-178 | The jsonpath always ends with the newline template; it is unchanged when it already did, and the template is appended otherwise |
| Kubectl.WithNewlineIdempotent | test/drenv/kubectl.py:177-178 | Normalising twice is normalising once |
| Kubectl.WatchDefaultJsonpath | test/drenv/kubectl.py:153-178 | The default jsonpath `{}` is watched as `--output=jsonpath={}{"\n"}` |
| Kubectl.Watch | test/drenv/kubectl.py:151-192 | The argv is get, the resource, `--watch`, the output flag with the normalised jsonpath, then `--namespace=` and `--context=` when truthy |
| Kubectl.Join | test/drenv/kubectl.py:205-208 | A comma join of a non-empty list of items without commas splits back into the same list |
| Kubectl.Gather | test/drenv/kubectl.py:195-212 | The fixed prefix with the joined contexts, then `--namespaces` for a non-empty list, `--directory` when truthy, `--verbose` when asked, in that order |

## Left out

- Logging: every `Debugf`, and the `log(line)` loop of `_watch`, are not modelled. They change no result.
- Real time: `util.Sleep` and the retry interval are oracles in the trace. A run whose trace ends without an exit is `Pending`, because the Go loop has no bound of its own.
- The DRPC fetch (`getDRPC`) and `util.GetDRPolicy` are oracles too. Their results are inputs.
- Error texts: `fmt.Errorf` messages are structured values that hold the values the message prints. The text itself is not built.
- `DRTest.CheckTest`: the workload and deployer panics re-raise the factory's error (e2e/dr_test.go:45, 50), whose text is not part of this model; the model's `UnknownWorkload` and `UnknownDeployer` carry the refused kind in its place. The unknown PVC spec panic is the constant text "unknown pvcSpec" and is a fieldless `UnknownPVCSpec`.
- Ramen API constants: the condition types and the completed progression are taken as "Available", "PeerReady" and "Completed". The api/v1alpha1 package is not part of this model.
- `t.Parallel`: the scenarios run concurrently in Go. The model records which scenarios start, not how they interleave.
- The lifecycle step bodies, `Validate`, `EnsureChannel`/`EnsureChannelDeleted` and the workload and deployer factories: their outcomes are inputs. The factories are the sets of kinds they accept.
- The body of the registered cleanup: only the number of cleanups registered is recorded.
- Subprocess execution in `commands.run`/`commands.watch`: `env`, `input`, `timeout`, `stderr` redirection and the `name` argument of `gather` are not modelled. Only the argv is.
- The line-by-line JSON logging loop of `gather` (test/drenv/kubectl.py:216-222) is left out, being logging.
- `config`, `create`, `get`, `describe`, `exec`, `apply`, `patch`, `delete`, `rollout` and `wait` are one-line forwards to `_run`/`_watch` with a fixed verb. Their argv is `Kubectl.CommandLine` with that verb, covered by `Kubectl.BuildCommand`.
- Python values other than a string or None (numbers, booleans) as annotation values or optional arguments are not modelled.
- `Kubectl.CommandLineRoundTrip`: the read-back requires that the arguments do not themselves start with a `--context` flag, because kubectl could not tell the two apart.
- `Retry.GetTargetCluster`: the precondition is the input range on which the Go indexing does not panic. A policy with no clusters, or a one-cluster policy whose only cluster is the current one, panics in Go and is excluded instead of modelled.
