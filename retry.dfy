/** The DRPC wait loops of the e2e DR actions and the rule that picks the
    cluster a workload fails over or relocates to.

    Each wait loop re-fetches one DRPlacementControl (DRPC) from the hub,
    tests that one snapshot, and otherwise sleeps and tries again. The fetch
    and the sleep are oracles: a run of a wait is fixed by a finite trace of
    attempts, each holding what the fetch returned and what the sleep
    returned. The trace covers the first |trace| passes of the loop; when
    none of them exits, the run is Pending (the real loop goes on).

    Every wait method is proved equal to one reference poller, Poll: the
    per-pass decision Decide, applied to every attempt, followed by the
    generic FirstStop that leaves at the first pass that stops. The lemmas
    below say what Poll does for each of the four waits. */
module Retry {
  import opened Optional

  // Names the Ramen API gives to the condition types and to the completed
  // progression.
  const ConditionAvailable: string := "Available"
  const ConditionPeerReady: string := "PeerReady"
  const ProgressionCompleted: string := "Completed"

  /** A status condition, reduced to the two fields the waits read. */
  datatype Condition = Condition(condType: string, status: string)

  /** The last group sync time; only whether it is present matters. */
  type Time = int

  /** The status part of a fetched DRPC. */
  datatype DRPCStatus = DRPCStatus(
    conditions: seq<Condition>,
    phase: string,
    progression: string,
    lastGroupSyncTime: Option<Time>)

  /** A failed fetch: the API server said the DRPC does not exist, or
      something else went wrong. */
  datatype FetchError = NotFound | OtherError(reason: string)

  datatype Fetch = Got(status: DRPCStatus) | FetchFailed(err: FetchError)

  /** What the cancellable sleep returned: it slept the retry interval, or the
      context was cancelled or its deadline passed. */
  datatype Sleep = Slept | SleepFailed(cause: string)

  /** One pass of a wait loop: the fetch it made and, if it got that far, the
      sleep it made. */
  datatype Attempt = Attempt(fetch: Fetch, sleep: Sleep)

  /** The DRPC being waited for: the hub cluster's name and the DRPC's
      namespace and name. */
  datatype Target = Target(hub: string, namespace: string, name: string)

  /** The context a wait wraps around a failed sleep. The ready wait records
      the four flags it computed on the last snapshot; the phase and
      progression waits record the TARGET value, not the one observed. */
  datatype Timeout =
    | NotReady(cluster: string, available: bool, peerReady: bool,
               progressionCompleted: bool, lastGroupSyncTime: Option<Time>)
    | PhaseNotReached(name: string, phase: string, cluster: string)
    | ProgressionNotReached(name: string, progression: string, cluster: string)
    | NotDeleted(name: string, cluster: string)

  /** A fetch error returned as it is, or a sleep error wrapped in context. */
  datatype WaitError = FetchErr(err: FetchError) | Wrapped(context: Timeout, cause: string)

  datatype Exit = Success | Failure(error: WaitError)

  /** A run leaves the loop at attempt `at` with `exit`, or is still waiting
      when the trace ends. */
  datatype Run = Exited(at: nat, exit: Exit) | Pending

  // ---------------------------------------------------------------------
  // Condition lookup

  /** Index i holds the first condition of type t. */
  ghost predicate FirstOfType(conditions: seq<Condition>, t: string, i: int)
  {
    0 <= i < |conditions| && conditions[i].condType == t &&
    forall j :: 0 <= j < i ==> conditions[j].condType != t
  }

  /** The first condition whose type is t, as the Kubernetes helper that
      finds a status condition does. */
  function FindCondition(conditions: seq<Condition>, t: string): (r: Option<Condition>)
    ensures r.Some? ==> exists i :: FirstOfType(conditions, t, i) && r.value == conditions[i]
    ensures r.None? <==> forall j :: 0 <= j < |conditions| ==> conditions[j].condType != t
  {
    if |conditions| == 0 then None
    else if conditions[0].condType == t then
      assert FirstOfType(conditions, t, 0);
      Some(conditions[0])
    else
      var r := FindCondition(conditions[1..], t);
      if r.Some? then FirstOfTypeShift(conditions, t, r.value); r else r
  }

  /** A first match in the tail, behind a head of another type, is a first
      match of the whole sequence. */
  lemma FirstOfTypeShift(conditions: seq<Condition>, t: string, c: Condition)
    requires |conditions| > 0 && conditions[0].condType != t
    requires exists i :: FirstOfType(conditions[1..], t, i) && c == conditions[1..][i]
    ensures exists i :: FirstOfType(conditions, t, i) && c == conditions[i]
  {
    var i :| FirstOfType(conditions[1..], t, i) && c == conditions[1..][i];
    assert FirstOfType(conditions, t, i + 1);
  }

  /** The condition of type t is met exactly when the first condition of that
      type exists and its status is the string "True"; a missing condition,
      "False", "Unknown" or any other status is not met. */
  function ConditionMet(conditions: seq<Condition>, t: string): (met: bool)
    ensures met <==> exists i :: FirstOfType(conditions, t, i) && conditions[i].status == "True"
  {
    var c := FindCondition(conditions, t);
    assert forall i, k :: FirstOfType(conditions, t, i) && FirstOfType(conditions, t, k) ==> i == k;
    c.Some? && c.value.status == "True"
  }

  /** All four readiness signals hold in this one snapshot: the first
      Available and the first PeerReady condition both have status "True",
      the progression is Completed and a last group sync time is set. */
  predicate IsReady(s: DRPCStatus): (ready: bool)
    ensures ready <==>
              && (exists i :: FirstOfType(s.conditions, ConditionAvailable, i) && s.conditions[i].status == "True")
              && (exists i :: FirstOfType(s.conditions, ConditionPeerReady, i) && s.conditions[i].status == "True")
              && s.progression == ProgressionCompleted
              && s.lastGroupSyncTime.Some?
  {
    && ConditionMet(s.conditions, ConditionAvailable)
    && ConditionMet(s.conditions, ConditionPeerReady)
    && s.progression == ProgressionCompleted
    && s.lastGroupSyncTime.Some?
  }

  // ---------------------------------------------------------------------
  // The reference poller

  /** The four waits, as specialisations of one poller. */
  datatype WaitKind = Ready | Phase(target: string) | Progression(target: string) | Deleted

  /** What a pass decides from its fetch alone: leave the loop, or sleep, a
      failed sleep then being reported with the given context. */
  datatype Verdict = Leave(exit: Exit) | SleepThen(timeout: Timeout)

  function Judge(kind: WaitKind, t: Target, f: Fetch): Verdict
  {
    match kind
    case Ready =>
      (match f
       case FetchFailed(e) => Leave(Failure(FetchErr(e)))
       case Got(s) =>
         if IsReady(s) then Leave(Success)
         else SleepThen(NotReady(t.hub,
                                 ConditionMet(s.conditions, ConditionAvailable),
                                 ConditionMet(s.conditions, ConditionPeerReady),
                                 s.progression == ProgressionCompleted,
                                 s.lastGroupSyncTime)))
    case Phase(p) =>
      (match f
       case FetchFailed(e) => Leave(Failure(FetchErr(e)))
       case Got(s) => if s.phase == p then Leave(Success) else SleepThen(PhaseNotReached(t.name, p, t.hub)))
    case Progression(p) =>
      (match f
       case FetchFailed(e) => Leave(Failure(FetchErr(e)))
       case Got(s) =>
         if s.progression == p then Leave(Success) else SleepThen(ProgressionNotReached(t.name, p, t.hub)))
    case Deleted =>
      if f == FetchFailed(NotFound) then Leave(Success) else SleepThen(NotDeleted(t.name, t.hub))
  }

  /** A whole pass either goes round the loop again or leaves it. */
  datatype Step = Again | Stop(exit: Exit)

  /** The outcome of one whole pass: its fetch verdict, then its sleep. */
  function Decide(kind: WaitKind, t: Target, a: Attempt): Step
  {
    match Judge(kind, t, a.fetch)
    case Leave(e) => Stop(e)
    case SleepThen(c) =>
      match a.sleep
      case Slept => Again
      case SleepFailed(cause) => Stop(Failure(Wrapped(c, cause)))
  }

  /** The outcome of every pass of a trace. */
  function Outcomes(kind: WaitKind, t: Target, trace: seq<Attempt>): (steps: seq<Step>)
    ensures |steps| == |trace|
    ensures forall j :: 0 <= j < |trace| ==> steps[j] == Decide(kind, t, trace[j])
  {
    seq(|trace|, j requires 0 <= j < |trace| => Decide(kind, t, trace[j]))
  }

  /** The generic poller: from pass i on, leave at the first pass that stops;
      still waiting if none does. */
  function FirstStop(steps: seq<Step>, i: nat): (r: Run)
    requires i <= |steps|
    ensures r.Exited? ==> i <= r.at < |steps|
    decreases |steps| - i
  {
    if i == |steps| then Pending
    else
      match steps[i]
      case Again => FirstStop(steps, i + 1)
      case Stop(e) => Exited(i, e)
  }

  /** The run of a wait over a trace: the first pass that stops, if any. */
  function Poll(kind: WaitKind, t: Target, trace: seq<Attempt>): (r: Run)
    ensures r.Exited? ==> r.at < |trace|
  {
    FirstStop(Outcomes(kind, t, trace), 0)
  }

  /** Fetches a run makes: one per pass up to and including the exiting one. */
  function FetchCount(trace: seq<Attempt>, run: Run): nat
  {
    match run
    case Exited(k, _) => k + 1
    case Pending => |trace|
  }

  /** Sleeps a run makes: one per pass whose fetch did not end the loop. */
  function SleepCount(kind: WaitKind, t: Target, trace: seq<Attempt>, run: Run): nat
    requires run.Exited? ==> run.at < |trace|
  {
    match run
    case Exited(k, _) => if Judge(kind, t, trace[k].fetch).SleepThen? then k + 1 else k
    case Pending => |trace|
  }

  // ---------------------------------------------------------------------
  // The four waits, as the loops are written

  /** Waits until one snapshot has Available and PeerReady met, progression
      Completed and a last group sync time. A fetch error is returned at
      once; a sleep error is wrapped with the four flags of that pass. */
  method WaitDRPCReady(t: Target, trace: seq<Attempt>) returns (run: Run, fetches: nat, sleeps: nat)
    ensures run == Poll(Ready, t, trace)
    ensures fetches == FetchCount(trace, run)
    ensures sleeps == SleepCount(Ready, t, trace, run)
  {
    fetches, sleeps := 0, 0;
    var i := 0;
    while i < |trace|
      invariant i <= |trace|
      invariant fetches == i && sleeps == i
      invariant FirstStop(Outcomes(Ready, t, trace), i) == Poll(Ready, t, trace)
    {
      var fetched := trace[i].fetch;
      fetches := fetches + 1;
      if fetched.FetchFailed? {
        run := Exited(i, Failure(FetchErr(fetched.err)));
        return;
      }
      var drpc := fetched.status;
      var available := ConditionMet(drpc.conditions, ConditionAvailable);
      var peerReady := ConditionMet(drpc.conditions, ConditionPeerReady);
      var progressionCompleted := drpc.progression == ProgressionCompleted;
      if available && peerReady && progressionCompleted && drpc.lastGroupSyncTime.Some? {
        run := Exited(i, Success);
        return;
      }
      var slept := trace[i].sleep;
      sleeps := sleeps + 1;
      if slept.SleepFailed? {
        var context := NotReady(t.hub, available, peerReady, progressionCompleted, drpc.lastGroupSyncTime);
        run := Exited(i, Failure(Wrapped(context, slept.cause)));
        return;
      }
      i := i + 1;
    }
    run := Pending;
  }

  /** Waits until the fetched phase equals `phase`. */
  method WaitDRPCPhase(t: Target, phase: string, trace: seq<Attempt>) returns (run: Run, fetches: nat, sleeps: nat)
    ensures run == Poll(Phase(phase), t, trace)
    ensures fetches == FetchCount(trace, run)
    ensures sleeps == SleepCount(Phase(phase), t, trace, run)
  {
    fetches, sleeps := 0, 0;
    var i := 0;
    while i < |trace|
      invariant i <= |trace|
      invariant fetches == i && sleeps == i
      invariant FirstStop(Outcomes(Phase(phase), t, trace), i) == Poll(Phase(phase), t, trace)
    {
      var fetched := trace[i].fetch;
      fetches := fetches + 1;
      if fetched.FetchFailed? {
        run := Exited(i, Failure(FetchErr(fetched.err)));
        return;
      }
      var currentPhase := fetched.status.phase;
      if currentPhase == phase {
        run := Exited(i, Success);
        return;
      }
      var slept := trace[i].sleep;
      sleeps := sleeps + 1;
      if slept.SleepFailed? {
        run := Exited(i, Failure(Wrapped(PhaseNotReached(t.name, phase, t.hub), slept.cause)));
        return;
      }
      i := i + 1;
    }
    run := Pending;
  }

  /** Waits until the DRPC is gone: only a not-found fetch error ends the
      wait well; any other fetch error is logged and retried like a
      successful fetch. */
  method WaitDRPCDeleted(t: Target, trace: seq<Attempt>) returns (run: Run, fetches: nat, sleeps: nat)
    ensures run == Poll(Deleted, t, trace)
    ensures fetches == FetchCount(trace, run)
    ensures sleeps == SleepCount(Deleted, t, trace, run)
  {
    fetches, sleeps := 0, 0;
    var i := 0;
    while i < |trace|
      invariant i <= |trace|
      invariant fetches == i && sleeps == i
      invariant FirstStop(Outcomes(Deleted, t, trace), i) == Poll(Deleted, t, trace)
    {
      var fetched := trace[i].fetch;
      fetches := fetches + 1;
      if fetched.FetchFailed? && fetched.err.NotFound? {
        run := Exited(i, Success);
        return;
      }
      var slept := trace[i].sleep;
      sleeps := sleeps + 1;
      if slept.SleepFailed? {
        run := Exited(i, Failure(Wrapped(NotDeleted(t.name, t.hub), slept.cause)));
        return;
      }
      i := i + 1;
    }
    run := Pending;
  }

  /** Waits until the fetched progression equals `progression`. */
  method WaitDRPCProgression(t: Target, progression: string, trace: seq<Attempt>)
    returns (run: Run, fetches: nat, sleeps: nat)
    ensures run == Poll(Progression(progression), t, trace)
    ensures fetches == FetchCount(trace, run)
    ensures sleeps == SleepCount(Progression(progression), t, trace, run)
  {
    fetches, sleeps := 0, 0;
    var i := 0;
    while i < |trace|
      invariant i <= |trace|
      invariant fetches == i && sleeps == i
      invariant FirstStop(Outcomes(Progression(progression), t, trace), i) == Poll(Progression(progression), t, trace)
    {
      var fetched := trace[i].fetch;
      fetches := fetches + 1;
      if fetched.FetchFailed? {
        run := Exited(i, Failure(FetchErr(fetched.err)));
        return;
      }
      var currentProgression := fetched.status.progression;
      if currentProgression == progression {
        run := Exited(i, Success);
        return;
      }
      var slept := trace[i].sleep;
      sleeps := sleeps + 1;
      if slept.SleepFailed? {
        run := Exited(i, Failure(Wrapped(ProgressionNotReached(t.name, progression, t.hub), slept.cause)));
        return;
      }
      i := i + 1;
    }
    run := Pending;
  }

  // ---------------------------------------------------------------------
  // What the reference poller does

  /** The generic poller exits at k with e exactly when passes i..k-1
      retried and pass k stopped with e. */
  lemma {:induction false} FirstStopExit(steps: seq<Step>, i: nat, k: nat, e: Exit)
    requires i <= |steps|
    ensures FirstStop(steps, i) == Exited(k, e) <==>
              && i <= k < |steps|
              && (forall j :: i <= j < k ==> steps[j] == Again)
              && steps[k] == Stop(e)
    decreases |steps| - i
  {
    if i < |steps| && steps[i] == Again {
      FirstStopExit(steps, i + 1, k, e);
    }
  }

  /** A run exits at attempt k with e exactly when every earlier pass
      retried and pass k stops with e. */
  lemma PollExit(kind: WaitKind, t: Target, trace: seq<Attempt>, k: nat, e: Exit)
    ensures Poll(kind, t, trace) == Exited(k, e) <==>
              && k < |trace|
              && (forall j :: 0 <= j < k ==> Decide(kind, t, trace[j]) == Again)
              && Decide(kind, t, trace[k]) == Stop(e)
  {
    FirstStopExit(Outcomes(kind, t, trace), 0, k, e);
  }

  /** The generic poller is still waiting exactly when every pass from i on
      retried. */
  lemma {:induction false} FirstStopPending(steps: seq<Step>, i: nat)
    requires i <= |steps|
    ensures FirstStop(steps, i) == Pending <==> forall j :: i <= j < |steps| ==> steps[j] == Again
    decreases |steps| - i
  {
    if i < |steps| && steps[i] == Again {
      FirstStopPending(steps, i + 1);
    }
  }

  /** A run is still waiting at the end of the trace exactly when every pass
      retried. */
  lemma PollPending(kind: WaitKind, t: Target, trace: seq<Attempt>)
    ensures Poll(kind, t, trace) == Pending <==>
              forall j :: 0 <= j < |trace| ==> Decide(kind, t, trace[j]) == Again
  {
    FirstStopPending(Outcomes(kind, t, trace), 0);
  }

  /** Every pass that does not exit sleeps once before the next fetch: a run
      that exits at k has slept k times, plus once more when it was the
      sleep that failed. */
  lemma SleepsPerPass(kind: WaitKind, t: Target, trace: seq<Attempt>)
    ensures var run := Poll(kind, t, trace);
            run.Exited? ==>
              SleepCount(kind, t, trace, run) ==
                run.at + (if run.exit.Failure? && run.exit.error.Wrapped? then 1 else 0)
  {
    var run := Poll(kind, t, trace);
    if run.Exited? {
      PollExit(kind, t, trace, run.at, run.exit);
    }
  }

  /** A ready pass retries exactly when it fetched a snapshot that is not
      ready and then slept. */
  lemma ReadyRetry(t: Target, a: Attempt)
    ensures Decide(Ready, t, a) == Again <==>
              a.fetch.Got? && !IsReady(a.fetch.status) && a.sleep == Slept
  {
  }

  /** The ready wait succeeds at attempt k exactly when snapshot k alone
      satisfies all four signals and every earlier pass fetched a snapshot
      that did not, and slept. */
  lemma WaitReadySucceedsAt(t: Target, trace: seq<Attempt>, k: nat)
    ensures Poll(Ready, t, trace) == Exited(k, Success) <==>
              && k < |trace|
              && trace[k].fetch.Got? && IsReady(trace[k].fetch.status)
              && forall j :: 0 <= j < k ==>
                   trace[j].fetch.Got? && !IsReady(trace[j].fetch.status) && trace[j].sleep == Slept
  {
    PollExit(Ready, t, trace, k, Success);
    forall j | 0 <= j < k && j < |trace| {
      ReadyRetry(t, trace[j]);
    }
  }

  /** When the ready wait gives up on a failed sleep, it reports the flags of
      that pass's own snapshot and the sleep's error. */
  lemma ReadyTimeoutCarriesFlags(t: Target, trace: seq<Attempt>, k: nat, c: Timeout, cause: string)
    requires Poll(Ready, t, trace) == Exited(k, Failure(Wrapped(c, cause)))
    ensures k < |trace| && trace[k].fetch.Got? && trace[k].sleep == SleepFailed(cause)
    ensures var s := trace[k].fetch.status;
            c == NotReady(t.hub,
                          ConditionMet(s.conditions, ConditionAvailable),
                          ConditionMet(s.conditions, ConditionPeerReady),
                          s.progression == ProgressionCompleted,
                          s.lastGroupSyncTime)
  {
    PollExit(Ready, t, trace, k, Failure(Wrapped(c, cause)));
  }

  /** The generic poller never runs past a pass that stops. */
  lemma {:induction false} FirstStopBefore(steps: seq<Step>, i: nat, k: nat)
    requires i <= k < |steps| && steps[k] != Again
    ensures FirstStop(steps, i).Exited? && FirstStop(steps, i).at <= k
    decreases k - i
  {
    if steps[i] == Again {
      assert i < k;
      FirstStopBefore(steps, i + 1, k);
    }
  }

  /** The ready, phase and progression waits never retry past a fetch error:
      they exit at or before the first one. */
  lemma NoRetryPastFetchError(kind: WaitKind, t: Target, trace: seq<Attempt>, k: nat)
    requires kind != Deleted
    requires k < |trace| && trace[k].fetch.FetchFailed?
    ensures Poll(kind, t, trace).Exited? && Poll(kind, t, trace).at <= k
  {
    FirstStopBefore(Outcomes(kind, t, trace), 0, k);
  }

  /** For the ready, phase and progression waits, a fetch error at a pass
      reached by retrying is returned unchanged, with no sleep after it. */
  lemma FetchErrorReturnedAsIs(kind: WaitKind, t: Target, trace: seq<Attempt>, k: nat)
    requires kind != Deleted
    requires k < |trace| && trace[k].fetch.FetchFailed?
    requires forall j :: 0 <= j < k ==> Decide(kind, t, trace[j]) == Again
    ensures Poll(kind, t, trace) == Exited(k, Failure(FetchErr(trace[k].fetch.err)))
    ensures SleepCount(kind, t, trace, Poll(kind, t, trace)) == k
  {
    PollExit(kind, t, trace, k, Failure(FetchErr(trace[k].fetch.err)));
  }

  /** The phase wait succeeds exactly at the first fetched snapshot whose
      phase equals the target. */
  lemma WaitPhaseSucceedsAt(t: Target, phase: string, trace: seq<Attempt>, k: nat)
    ensures Poll(Phase(phase), t, trace) == Exited(k, Success) <==>
              && k < |trace|
              && trace[k].fetch.Got? && trace[k].fetch.status.phase == phase
              && forall j :: 0 <= j < k ==>
                   trace[j].fetch.Got? && trace[j].fetch.status.phase != phase && trace[j].sleep == Slept
  {
    PollExit(Phase(phase), t, trace, k, Success);
  }

  /** The progression wait succeeds exactly at the first fetched snapshot
      whose progression equals the target. */
  lemma WaitProgressionSucceedsAt(t: Target, progression: string, trace: seq<Attempt>, k: nat)
    ensures Poll(Progression(progression), t, trace) == Exited(k, Success) <==>
              && k < |trace|
              && trace[k].fetch.Got? && trace[k].fetch.status.progression == progression
              && forall j :: 0 <= j < k ==>
                   trace[j].fetch.Got? && trace[j].fetch.status.progression != progression
                   && trace[j].sleep == Slept
  {
    PollExit(Progression(progression), t, trace, k, Success);
  }

  /** A timed-out phase or progression wait names the value it waited for,
      whatever value the last snapshot held. */
  lemma TimeoutNamesTarget(kind: WaitKind, t: Target, trace: seq<Attempt>, k: nat, c: Timeout, cause: string)
    requires kind.Phase? || kind.Progression?
    requires Poll(kind, t, trace) == Exited(k, Failure(Wrapped(c, cause)))
    ensures k < |trace| && trace[k].fetch.Got? && trace[k].sleep == SleepFailed(cause)
    ensures kind.Phase? ==>
              c == PhaseNotReached(t.name, kind.target, t.hub) &&
              trace[k].fetch.status.phase != kind.target
    ensures kind.Progression? ==>
              c == ProgressionNotReached(t.name, kind.target, t.hub) &&
              trace[k].fetch.status.progression != kind.target
  {
    PollExit(kind, t, trace, k, Failure(Wrapped(c, cause)));
  }

  /** The deletion wait succeeds exactly at the first not-found fetch error;
      a snapshot or any other error before it was followed by a sleep. */
  lemma WaitDeletedSucceedsAt(t: Target, trace: seq<Attempt>, k: nat)
    ensures Poll(Deleted, t, trace) == Exited(k, Success) <==>
              && k < |trace|
              && trace[k].fetch == FetchFailed(NotFound)
              && forall j :: 0 <= j < k ==> trace[j].fetch != FetchFailed(NotFound) && trace[j].sleep == Slept
  {
    PollExit(Deleted, t, trace, k, Success);
  }

  /** The deletion wait never returns a fetch error: its only failure is a
      failed sleep, wrapped with the DRPC's name and the hub's name. */
  lemma WaitDeletedFailsOnlyOnSleep(t: Target, trace: seq<Attempt>)
    ensures var run := Poll(Deleted, t, trace);
            run.Exited? && run.exit.Failure? ==>
              && run.exit.error.Wrapped?
              && run.exit.error.context == NotDeleted(t.name, t.hub)
              && trace[run.at].sleep == SleepFailed(run.exit.error.cause)
  {
    var run := Poll(Deleted, t, trace);
    if run.Exited? {
      PollExit(Deleted, t, trace, run.at, run.exit);
    }
  }

  /** Readiness needs all four signals in the same snapshot: signals spread
      over two snapshots keep the wait going, while one snapshot with all
      four ends it. */
  lemma ReadinessNeedsOneSnapshot(t: Target)
    ensures var partial := DRPCStatus([Condition(ConditionAvailable, "True"), Condition(ConditionPeerReady, "True")],
                                      "", "Running", None);
            var rest := DRPCStatus([], "", ProgressionCompleted, Some(1));
            var full := DRPCStatus([Condition(ConditionAvailable, "True"), Condition(ConditionPeerReady, "True")],
                                   "", ProgressionCompleted, Some(1));
            && Poll(Ready, t, [Attempt(Got(partial), Slept), Attempt(Got(rest), Slept)]) == Pending
            && Poll(Ready, t, [Attempt(Got(partial), Slept), Attempt(Got(full), Slept)]) == Exited(1, Success)
  {
    var partial := DRPCStatus([Condition(ConditionAvailable, "True"), Condition(ConditionPeerReady, "True")],
                              "", "Running", None);
    var rest := DRPCStatus([], "", ProgressionCompleted, Some(1));
    var full := DRPCStatus([Condition(ConditionAvailable, "True"), Condition(ConditionPeerReady, "True")],
                           "", ProgressionCompleted, Some(1));
    assert FirstOfType(full.conditions, ConditionAvailable, 0);
    assert FirstOfType(full.conditions, ConditionPeerReady, 1);
    assert !IsReady(partial);
    assert FindCondition(rest.conditions, ConditionAvailable) == None;
    assert !IsReady(rest);
    assert IsReady(full);
    var t1 := [Attempt(Got(partial), Slept), Attempt(Got(rest), Slept)];
    var t2 := [Attempt(Got(partial), Slept), Attempt(Got(full), Slept)];
    assert Decide(Ready, t, t1[0]) == Again && Decide(Ready, t, t1[1]) == Again;
    assert Outcomes(Ready, t, t1) == [Again, Again];
    assert FirstStop([Again, Again], 1) == Pending;
    assert Decide(Ready, t, t2[0]) == Again && Decide(Ready, t, t2[1]) == Stop(Success);
    assert Outcomes(Ready, t, t2) == [Again, Stop(Success)];
    assert FirstStop([Again, Stop(Success)], 1) == Exited(1, Success);
  }

  /** Two server errors and then a not-found: the deletion wait succeeds at
      the third attempt, after two sleeps, and not before. */
  lemma DeletionAfterTwoErrors(t: Target, cause: string)
    ensures var trace := [Attempt(FetchFailed(OtherError("server error")), Slept),
                          Attempt(FetchFailed(OtherError("server error")), Slept),
                          Attempt(FetchFailed(NotFound), SleepFailed(cause))];
            && Poll(Deleted, t, trace) == Exited(2, Success)
            && SleepCount(Deleted, t, trace, Poll(Deleted, t, trace)) == 2
  {
    var trace := [Attempt(FetchFailed(OtherError("server error")), Slept),
                  Attempt(FetchFailed(OtherError("server error")), Slept),
                  Attempt(FetchFailed(NotFound), SleepFailed(cause))];
    var steps := [Again, Again, Stop(Success)];
    assert Outcomes(Deleted, t, trace) == steps;
    assert FirstStop(steps, 1) == Exited(2, Success);
  }

  // ---------------------------------------------------------------------
  // Target-cluster selection

  /** The result of looking up the DRPolicy: its ordered DR cluster names,
      or the lookup's error. */
  datatype PolicyLookup = PolicyFound(drClusters: seq<string>) | LookupFailed(err: string)

  /** The pair the Go function returns: a cluster name and an error. */
  datatype TargetResult = TargetResult(cluster: string, err: Option<string>)

  /** Picks the cluster other than `current`, purely by position: the second
      entry when `current` is the first, and the first entry in every other
      case, including a `current` that is not in the policy at all. The
      requires is exactly what keeps the two index expressions in range. */
  function GetTargetCluster(lookup: PolicyLookup, current: string): (r: TargetResult)
    requires lookup.PolicyFound? ==>
               |lookup.drClusters| >= 1 &&
               (current == lookup.drClusters[0] ==> |lookup.drClusters| >= 2)
    ensures lookup.LookupFailed? ==> r == TargetResult("", Some(lookup.err))
    ensures lookup.PolicyFound? ==>
              && r.err == None
              && r.cluster in lookup.drClusters
              && (current == lookup.drClusters[0] ==> r.cluster == lookup.drClusters[1])
              && (current != lookup.drClusters[0] ==> r.cluster == lookup.drClusters[0])
  {
    match lookup
    case LookupFailed(err) => TargetResult("", Some(err))
    case PolicyFound(drClusters) =>
      var target := if current == drClusters[0] then drClusters[1] else drClusters[0];
      TargetResult(target, None)
  }

  /** For a policy of two distinct clusters, selection swaps the two: each
      member maps to the other, so selecting twice gives the member back. */
  lemma TargetClusterSwapsMembers(a: string, b: string, c: string)
    requires a != b && (c == a || c == b)
    ensures var policy := PolicyFound([a, b]);
            var first := GetTargetCluster(policy, c).cluster;
            && first != c
            && first in {a, b}
            && GetTargetCluster(policy, first).cluster == c
  {
  }

  /** For a cluster that is not in the policy, selection gives the first
      entry, and selecting again gives the second: the round trip does not
      come back. */
  lemma TargetClusterOfNonMember(a: string, b: string, c: string)
    requires a != b && c != a && c != b
    ensures var policy := PolicyFound([a, b]);
            var first := GetTargetCluster(policy, c).cluster;
            && first == a
            && GetTargetCluster(policy, first).cluster == b
            && GetTargetCluster(policy, first).cluster != c
  {
  }
}
