/** The readiness poller run after a start: wait for the app to report STARTED, then for an
    instance of its primary process to report RUNNING, with a capped exponential backoff. */
module Ready {
  import opened Common
  import opened Platform

  const InitialDelay := 2000
  const MaxDelay := 15000
  const StatePollLimit := 8
  const StatsPollLimit := 10

  /** The backoff step `min(delay * 1.5, 15000)` in integer arithmetic. */
  function NextDelay(d: int): (r: int)
    ensures InDelayRange(d) ==> InDelayRange(r)
    ensures d >= 0 ==> (r == MaxDelay <==> 3 * d >= 2 * MaxDelay)
    ensures d >= 0 && r < MaxDelay ==> 2 * r <= 3 * d < 2 * r + 2
  {
    if d * 3 / 2 < MaxDelay then d * 3 / 2 else MaxDelay
  }

  predicate InDelayRange(d: int)
  {
    InitialDelay <= d <= MaxDelay
  }

  /** The delay in force after `k` unsuccessful polls. */
  function Schedule(k: nat): int
  {
    if k == 0 then InitialDelay else NextDelay(Schedule(k - 1))
  }

  /** The backoff only ever takes the six values 2000, 3000, 4500, 6750, 10125 and 15000. */
  lemma {:induction false} ScheduleValues(k: nat)
    ensures Schedule(k) in {2000, 3000, 4500, 6750, 10125, 15000}
    ensures k >= 5 ==> Schedule(k) == MaxDelay
  {
    if k > 0 {
      ScheduleValues(k - 1);
    }
  }

  /** The integer backoff agrees with the source's floating-point `Math.min(delay * 1.5, 15000)`
      at every delay the poller can reach: no fraction ever survives the cap. */
  lemma {:induction false} IntegerBackoffIsExact(k: nat)
    ensures NextDelay(Schedule(k)) as real ==
              if Schedule(k) as real * 1.5 < MaxDelay as real then Schedule(k) as real * 1.5 else MaxDelay as real
  {
    ScheduleValues(k);
  }

  /** How one poll reply is read: the awaited condition holds, does not hold yet, or the request failed. */
  datatype Verdict = Ready | NotYet(detail: string) | Broken(message: string)

  /** How a polling phase ended: the condition held (with the delay in force), the budget ran out
      (with the last reply's detail), or a request failed. */
  datatype PhaseEnd = Reached(delay: int) | Exhausted(detail: string) | Aborted(message: string)

  /** A phase's end, the pause before every poll, and the number of polls made in total. */
  datatype PhaseReport = PhaseReport(end: PhaseEnd, sleeps: seq<int>, polls: nat)

  /** Polls `i`, `i + 1`, ... of a phase with budget `limit`, each preceded by a pause of the delay
      in force; after an unsuccessful poll other than the last the delay grows by `NextDelay`. */
  function PollPhase(verdicts: nat -> Verdict, limit: nat, i: nat, delay: int): (r: PhaseReport)
    requires i < limit
    requires InDelayRange(delay)
    ensures i < r.polls <= limit
    ensures |r.sleeps| == r.polls - i
    ensures r.sleeps[0] == delay
    ensures forall j :: 0 <= j < |r.sleeps| ==> InDelayRange(r.sleeps[j])
    ensures forall j :: 0 <= j < |r.sleeps| - 1 ==> r.sleeps[j + 1] == NextDelay(r.sleeps[j])
    ensures forall j :: i <= j < r.polls - 1 ==> verdicts(j).NotYet?
    ensures r.end.Reached? <==> verdicts(r.polls - 1).Ready?
    ensures r.end.Reached? ==> r.end.delay == r.sleeps[|r.sleeps| - 1]
    ensures r.end.Aborted? <==> verdicts(r.polls - 1).Broken?
    ensures r.end.Aborted? ==> r.end.message == verdicts(r.polls - 1).message
    ensures r.end.Exhausted? <==> verdicts(r.polls - 1).NotYet?
    ensures r.end.Exhausted? ==> r.polls == limit && r.end.detail == verdicts(limit - 1).detail
    decreases limit - i
  {
    match verdicts(i)
    case Ready => PhaseReport(Reached(delay), [delay], i + 1)
    case Broken(m) => PhaseReport(Aborted(m), [delay], i + 1)
    case NotYet(d) =>
      if i == limit - 1 then PhaseReport(Exhausted(d), [delay], i + 1)
      else
        var rest := PollPhase(verdicts, limit, i + 1, NextDelay(delay));
        rest.(sleeps := [delay] + rest.sleeps)
  }

  /** When every reply of the budget is "not yet", the phase makes all its polls and gives up. */
  lemma {:induction false} PhaseExhaustsBudget(verdicts: nat -> Verdict, limit: nat, i: nat, delay: int)
    requires i < limit && InDelayRange(delay)
    requires forall j :: i <= j < limit ==> verdicts(j).NotYet?
    ensures PollPhase(verdicts, limit, i, delay).end.Exhausted?
    ensures PollPhase(verdicts, limit, i, delay).polls == limit
  {
    var r := PollPhase(verdicts, limit, i, delay);
    assert verdicts(r.polls - 1).NotYet?;
  }

  /** The readiness contract of the source: the phase's pauses are the backoff schedule. */
  lemma {:induction false} PhaseFollowsSchedule(verdicts: nat -> Verdict, limit: nat, k: nat)
    requires 0 < limit
    ensures var r := PollPhase(verdicts, limit, 0, InitialDelay);
            forall j :: 0 <= j < |r.sleeps| ==> r.sleeps[j] == Schedule(j)
  {
    var r := PollPhase(verdicts, limit, 0, InitialDelay);
    forall j | 0 <= j < |r.sleeps|
      ensures r.sleeps[j] == Schedule(j)
    {
      ScheduleIndex(r.sleeps, j);
    }
  }

  lemma {:induction false} ScheduleIndex(sleeps: seq<int>, j: nat)
    requires j < |sleeps|
    requires |sleeps| > 0 && sleeps[0] == InitialDelay
    requires forall m :: 0 <= m < |sleeps| - 1 ==> sleeps[m + 1] == NextDelay(sleeps[m])
    ensures sleeps[j] == Schedule(j)
  {
    if j > 0 {
      ScheduleIndex(sleeps, j - 1);
    }
  }

  /** How the replies of the app-state phase are read. */
  function StateVerdict(reply: StateReply): (v: Verdict)
    ensures v.Ready? <==> reply == AppStateIs("STARTED")
    ensures v.Broken? <==> reply.StateFailed?
    ensures v.Broken? ==> v.message == reply.message
    ensures v.NotYet? ==> v.detail == reply.state
  {
    match reply
    case StateFailed(m) => Broken(m)
    case AppStateIs(s) => if s == "STARTED" then Ready else NotYet(s)
  }

  /** How the replies of the instance-stats phase are read: ready once any instance is RUNNING. */
  function StatsVerdict(reply: StatsReply): (v: Verdict)
    ensures v.Ready? <==> reply.InstancesAre? && "RUNNING" in reply.states
    ensures v.Broken? <==> reply.StatsFailed?
    ensures v.Broken? ==> v.message == reply.message
  {
    match reply
    case StatsFailed(m) => Broken(m)
    case InstancesAre(states) => if "RUNNING" in states then Ready else NotYet("")
  }

  /** The primary process: the first labelled "web", else the first of any label. */
  function PrimaryProcess(ps: seq<Process>): (r: Option<Process>)
    ensures r.None? <==> ps == []
    ensures r.Some? ==> r.value in ps
    ensures r.Some? && r.value.kind != "web" ==> r.value == ps[0] && forall p :: p in ps ==> p.kind != "web"
    ensures r.Some? && (exists p :: p in ps && p.kind == "web") ==> r.value.kind == "web"
    ensures r.Some? && r.value.kind == "web" ==>
              exists i :: 0 <= i < |ps| && ps[i] == r.value && forall j :: 0 <= j < i ==> ps[j].kind != "web"
  {
    if ps == [] then None
    else FirstWeb(ps, ps[0])
  }

  function FirstWeb(ps: seq<Process>, fallback: Process): (r: Option<Process>)
    ensures r.Some?
    ensures r.value in ps || r.value == fallback
    ensures r.value.kind == "web" <==> (exists p :: p in ps && p.kind == "web") || (fallback.kind == "web" && r.value == fallback)
    ensures (forall p :: p in ps ==> p.kind != "web") ==> r.value == fallback
    ensures (exists p :: p in ps && p.kind == "web") ==>
              exists i :: 0 <= i < |ps| && ps[i] == r.value && forall j :: 0 <= j < i ==> ps[j].kind != "web"
  {
    if ps == [] then Some(fallback)
    else if ps[0].kind == "web" then Some(ps[0])
    else
      assert forall p :: p in ps[1..] ==> p in ps;
      var r := FirstWeb(ps[1..], fallback);
      if exists p :: p in ps && p.kind == "web" then
        var p :| p in ps && p.kind == "web";
        assert p in ps[1..];
        var i :| 0 <= i < |ps[1..]| && ps[1..][i] == r.value && forall j :: 0 <= j < i ==> ps[1..][j].kind != "web";
        assert ps[i + 1] == r.value && forall j :: 0 <= j < i + 1 ==> ps[j].kind != "web";
        r
      else r
  }

  /** The replies of one readiness wait: the state polls, the process listing and the stats polls. */
  datatype ReadyScript = ReadyScript(
    statePolls: nat -> StateReply,
    processes: ProcessesReply,
    statsPolls: nat -> StatsReply)

  /** Why a readiness wait failed. The first two are the source's two distinct timeouts. */
  datatype ReadyFailure =
    | NotStarted(finalState: string)
    | NotRunning
    | NoProcess
    | ApiFailure(message: string)

  /** The outcome (the polled process's GUID on success), the requests and pauses issued, the pauses
      alone, and the number of polls of each phase. */
  datatype ReadyReport = ReadyReport(
    outcome: Result<string, ReadyFailure>,
    calls: seq<Call>,
    sleeps: seq<int>,
    statePolls: nat,
    statsPolls: nat)

  /** A pause before each poll. */
  function Interleave(sleeps: seq<int>, poll: Call): (calls: seq<Call>)
    requires !poll.Pause?
    ensures |calls| == 2 * |sleeps|
    ensures StagesWithin(calls, Stage(poll), Stage(poll))
    ensures PausesOf(calls) == sleeps
  {
    if sleeps == [] then []
    else
      var rest := Interleave(sleeps[1..], poll);
      WithinCons(poll, rest, Stage(poll), Stage(poll));
      WithinCons(Pause(sleeps[0]), [poll] + rest, Stage(poll), Stage(poll));
      var calls := [Pause(sleeps[0])] + ([poll] + rest);
      assert calls[1..] == [poll] + rest;
      assert calls[1..][1..] == rest;
      calls
  }

  /** An interleaving of at least one pause ends with the poll. */
  lemma {:induction false} InterleaveEndsWithPoll(sleeps: seq<int>, poll: Call)
    requires !poll.Pause?
    ensures |sleeps| > 0 ==> Interleave(sleeps, poll)[2 * |sleeps| - 1] == poll
  {
    if |sleeps| > 1 {
      InterleaveEndsWithPoll(sleeps[1..], poll);
      var rest := Interleave(sleeps[1..], poll);
      assert Interleave(sleeps, poll) == [Pause(sleeps[0]), poll] + rest;
    }
  }

  /** Position `2k` of an interleaving is the `k`-th pause and position `2k + 1` the poll after it. */
  lemma {:induction false} InterleaveAt(sleeps: seq<int>, poll: Call, k: nat)
    requires !poll.Pause? && k < |sleeps|
    ensures Interleave(sleeps, poll)[2 * k] == Pause(sleeps[k])
    ensures Interleave(sleeps, poll)[2 * k + 1] == poll
    decreases k
  {
    var tail := sleeps[1..];
    var rest := Interleave(tail, poll);
    var c := Interleave(sleeps, poll);
    assert c == [Pause(sleeps[0])] + ([poll] + rest);
    if k > 0 {
      InterleaveAt(tail, poll, k - 1);
      assert sleeps[k] == tail[k - 1];
      assert c[2 * k] == rest[2 * (k - 1)] && c[2 * k + 1] == rest[2 * (k - 1) + 1];
    }
  }

  /** An interleaving is the `k`-th pause followed by the poll, for every `k` in order. */
  lemma InterleaveShape(sleeps: seq<int>, poll: Call)
    requires !poll.Pause?
    ensures forall k :: 0 <= k < |sleeps| ==>
              Interleave(sleeps, poll)[2 * k] == Pause(sleeps[k]) && Interleave(sleeps, poll)[2 * k + 1] == poll
  {
    forall k | 0 <= k < |sleeps|
      ensures Interleave(sleeps, poll)[2 * k] == Pause(sleeps[k]) && Interleave(sleeps, poll)[2 * k + 1] == poll
    {
      InterleaveAt(sleeps, poll, k);
    }
  }

  /** The pauses requested in a trace, in order. */
  function PausesOf(calls: seq<Call>): seq<int>
  {
    if calls == [] then []
    else (if calls[0].Pause? then [calls[0].ms] else []) + PausesOf(calls[1..])
  }

  lemma {:induction false} PausesOfAppend(a: seq<Call>, b: seq<Call>)
    ensures PausesOf(a + b) == PausesOf(a) + PausesOf(b)
  {
    if a == [] {
      assert a + b == b;
    } else {
      assert (a + b)[0] == a[0];
      assert (a + b)[1..] == a[1..] + b;
      PausesOfAppend(a[1..], b);
    }
  }

  function StateVerdicts(script: ReadyScript): nat -> Verdict
  {
    (j: nat) => StateVerdict(script.statePolls(j))
  }

  function StatsVerdicts(script: ReadyScript): nat -> Verdict
  {
    (j: nat) => StatsVerdict(script.statsPolls(j))
  }

  /** The app-state phase: at most eight polls, starting at the initial delay. */
  function StatePhase(script: ReadyScript): PhaseReport
  {
    PollPhase(StateVerdicts(script), StatePollLimit, 0, InitialDelay)
  }

  /** The instance-stats phase: at most ten polls, starting at the delay the state phase ended with. */
  function StatsPhase(script: ReadyScript, delay: int): PhaseReport
    requires InDelayRange(delay)
  {
    PollPhase(StatsVerdicts(script), StatsPollLimit, 0, delay)
  }

  /** The source's `waitAppReady`: the state phase, the process listing, then the stats phase on
      the primary process. The delay in force when the app reported STARTED carries over,
      unchanged, to the first pause of the stats phase. */
  function WaitReady(appGuid: string, script: ReadyScript): (r: ReadyReport)
    ensures r.statePolls == StatePhase(script).polls && r.statePolls <= StatePollLimit
    ensures r.statsPolls <= StatsPollLimit
    ensures r.outcome != Failure(NoProcess) ==> |r.sleeps| == r.statePolls + r.statsPolls
    ensures r.outcome == Failure(NoProcess) <==>
              StatePhase(script).end.Reached? && script.processes.ProcessesAre? && script.processes.processes == []
    ensures r.outcome == Failure(NoProcess) ==>
              r.statsPolls == 0 && r.sleeps == StatePhase(script).sleeps + [StatePhase(script).end.delay]
    ensures |r.sleeps| >= r.statePolls > 0 && r.sleeps[..r.statePolls] == StatePhase(script).sleeps
    ensures r.statsPolls > 0 ==> (StatePhase(script).end.Reached?
              && r.sleeps[r.statePolls..] == StatsPhase(script, StatePhase(script).end.delay).sleeps)
    ensures |r.sleeps| > r.statePolls ==> r.sleeps[r.statePolls] == r.sleeps[r.statePolls - 1]
    ensures PausesOf(r.calls) == r.sleeps
    ensures StagesWithin(r.calls, 4, 6) && InStageOrder(r.calls)
    ensures r.calls == WaitCalls(appGuid, script)
    ensures r.outcome.Failure? && r.outcome.error.NotStarted? <==> StatePhase(script).end.Exhausted?
    ensures r.outcome.Failure? && r.outcome.error.NotRunning? <==>
              r.statsPolls > 0 && StatsPhase(script, StatePhase(script).end.delay).end.Exhausted?
    ensures r.outcome.Success? <==>
              r.statsPolls > 0 && StatsPhase(script, StatePhase(script).end.delay).end.Reached?
    ensures r.outcome.Success? ==> (script.processes.ProcessesAre?
              && PrimaryProcess(script.processes.processes).Some?
              && PrimaryProcess(script.processes.processes).value.guid == r.outcome.value)
  {
    var st := StatePhase(script);
    var stateCalls := Interleave(st.sleeps, StatePoll(appGuid));
    assert st.sleeps[..st.polls] == st.sleeps;
    SingleStageOrdered(stateCalls, 4);
    WidenWithin(stateCalls, 4, 4, 4, 6);
    if st.end.Reached? then AfterStarted(appGuid, script, st.sleeps, stateCalls, st.end.delay)
    else ReadyReport(Failure(StateFailure(st.end)), stateCalls, st.sleeps, st.polls, 0)
  }

  /** A failed request during the wait is passed on unchanged: the error of a failed state poll,
      process listing or stats poll is the error the wait reports. */
  lemma WaitReportsApiError(appGuid: string, script: ReadyScript)
    ensures var r := WaitReady(appGuid, script);
      && (StatePhase(script).end.Aborted? ==> r.outcome == Failure(ApiFailure(StatePhase(script).end.message)))
      && (StatePhase(script).end.Reached? && script.processes.ProcessesFailed? ==>
            r.outcome == Failure(ApiFailure(script.processes.message)))
      && (r.statsPolls > 0 && StatsPhase(script, StatePhase(script).end.delay).end.Aborted? ==>
            r.outcome == Failure(ApiFailure(StatsPhase(script, StatePhase(script).end.delay).end.message)))
  {
  }

  /** How a state phase that never saw STARTED fails the wait: an API failure passes its error on,
      and running out of polls is the not-started timeout carrying the last state seen. */
  function StateFailure(end: PhaseEnd): (f: ReadyFailure)
    requires !end.Reached?
    ensures end.Aborted? <==> f.ApiFailure?
    ensures end.Aborted? ==> f == ApiFailure(end.message)
    ensures end.Exhausted? ==> f == NotStarted(end.detail)
  {
    if end.Aborted? then ApiFailure(end.message) else NotStarted(end.detail)
  }

  /** The part of the wait after the app reported STARTED, given the state phase's pauses and
      requests and the delay in force at its end. */
  function AfterStarted(appGuid: string, script: ReadyScript, stateSleeps: seq<int>, stateCalls: seq<Call>, delay: int): (r: ReadyReport)
    requires InDelayRange(delay) && |stateSleeps| > 0 && stateSleeps[|stateSleeps| - 1] == delay
    requires PausesOf(stateCalls) == stateSleeps
    requires StagesWithin(stateCalls, 4, 4)
    ensures r.statePolls == |stateSleeps|
    ensures r.statsPolls <= StatsPollLimit
    ensures r.outcome != Failure(NoProcess) ==> |r.sleeps| == r.statePolls + r.statsPolls
    ensures r.outcome == Failure(NoProcess) <==> script.processes.ProcessesAre? && script.processes.processes == []
    ensures r.outcome == Failure(NoProcess) ==> r.statsPolls == 0 && r.sleeps == stateSleeps + [delay]
    ensures |r.sleeps| >= r.statePolls && r.sleeps[..r.statePolls] == stateSleeps
    ensures r.statsPolls > 0 ==> r.sleeps[r.statePolls..] == StatsPhase(script, delay).sleeps
    ensures |r.sleeps| > r.statePolls ==> r.sleeps[r.statePolls] == r.sleeps[r.statePolls - 1]
    ensures PausesOf(r.calls) == r.sleeps
    ensures StagesWithin(r.calls, 4, 6) && InStageOrder(r.calls)
    ensures !(r.outcome.Failure? && r.outcome.error.NotStarted?)
    ensures r.outcome.Failure? && r.outcome.error.NotRunning? <==>
              r.statsPolls > 0 && StatsPhase(script, delay).end.Exhausted?
    ensures r.outcome.Success? <==> r.statsPolls > 0 && StatsPhase(script, delay).end.Reached?
    ensures r.outcome.Success? ==> (script.processes.ProcessesAre?
              && PrimaryProcess(script.processes.processes).Some?
              && PrimaryProcess(script.processes.processes).value.guid == r.outcome.value)
    ensures r.calls == stateCalls + [ProcessListing(appGuid)] + LaterCalls(script, delay)
    ensures script.processes.ProcessesFailed? ==> r.outcome == Failure(ApiFailure(script.processes.message))
    ensures r.statsPolls > 0 && StatsPhase(script, delay).end.Aborted? ==>
              r.outcome == Failure(ApiFailure(StatsPhase(script, delay).end.message))
  {
    var listed := stateCalls + [ProcessListing(appGuid)];
    SingleStageOrdered(stateCalls, 4);
    WithinCons(ProcessListing(appGuid), [], 5, 5);
    assert [ProcessListing(appGuid)] + [] == [ProcessListing(appGuid)];
    OrderedAppend(stateCalls, [ProcessListing(appGuid)], 4, 4, 5);
    WidenWithin(listed, 4, 5, 4, 6);
    PausesOfAppend(stateCalls, [ProcessListing(appGuid)]);
    assert PausesOf([ProcessListing(appGuid)]) == [];
    assert stateSleeps + [] == stateSleeps;
    var n := |stateSleeps|;
    assert stateSleeps[..n] == stateSleeps;
    match script.processes
    case ProcessesFailed(m) =>
      assert LaterCalls(script, delay) == [] && listed + [] == listed;
      ReadyReport(Failure(ApiFailure(m)), listed, stateSleeps, n, 0)
    case ProcessesAre(ps) =>
      match PrimaryProcess(ps)
      case None =>
        assert LaterCalls(script, delay) == [Pause(delay)];
        NoProcessStage(listed, stateSleeps, delay)
      case Some(p) =>
        assert LaterCalls(script, delay) == Interleave(StatsPhase(script, delay).sleeps, StatsPoll(p.guid));
        var r := StatsStage(script, listed, stateSleeps, delay, p);
        assert r.sleeps[..n] == stateSleeps && r.sleeps[n..] == StatsPhase(script, delay).sleeps;
        r
  }

  /** An empty process listing: the stats loop still sleeps once before the missing process is
      dereferenced, and the wait fails. */
  function NoProcessStage(listed: seq<Call>, stateSleeps: seq<int>, delay: int): (r: ReadyReport)
    requires PausesOf(listed) == stateSleeps
    requires StagesWithin(listed, 4, 5) && InStageOrder(listed)
    ensures r.outcome == Failure(NoProcess) && r.statePolls == |stateSleeps| && r.statsPolls == 0
    ensures r.calls == listed + [Pause(delay)]
    ensures r.sleeps == stateSleeps + [delay] && r.sleeps[..r.statePolls] == stateSleeps
    ensures PausesOf(r.calls) == r.sleeps
    ensures StagesWithin(r.calls, 4, 6) && InStageOrder(r.calls)
  {
    var calls := listed + [Pause(delay)];
    assert forall i :: 0 <= i < |calls| ==> WithinAt(calls, i, 4, 6) by {
      forall i | 0 <= i < |calls|
        ensures WithinAt(calls, i, 4, 6)
      {
        if i < |listed| {
          assert calls[i] == listed[i] && WithinAt(listed, i, 4, 5);
        }
      }
    }
    assert forall i, j :: 0 <= i < j < |calls| ==> OrderedAt(calls, i, j) by {
      forall i, j | 0 <= i < j < |calls|
        ensures OrderedAt(calls, i, j)
      {
        if j < |listed| {
          assert calls[i] == listed[i] && calls[j] == listed[j] && OrderedAt(listed, i, j);
        }
      }
    }
    PausesOfAppend(listed, [Pause(delay)]);
    assert PausesOf([Pause(delay)]) == [delay] by {
      assert [Pause(delay)][1..] == [];
    }
    var sleeps := stateSleeps + [delay];
    assert sleeps[..|stateSleeps|] == stateSleeps;
    ReadyReport(Failure(NoProcess), calls, sleeps, |stateSleeps|, 0)
  }

  /** The stats phase on the primary process `p`, after the requests `listed`. */
  function StatsStage(script: ReadyScript, listed: seq<Call>, stateSleeps: seq<int>, delay: int, p: Process): (r: ReadyReport)
    requires InDelayRange(delay) && |stateSleeps| > 0 && stateSleeps[|stateSleeps| - 1] == delay
    requires PausesOf(listed) == stateSleeps
    requires StagesWithin(listed, 4, 5) && InStageOrder(listed)
    ensures r.statePolls == |stateSleeps| && 0 < r.statsPolls <= StatsPollLimit
    ensures r.sleeps == stateSleeps + StatsPhase(script, delay).sleeps
    ensures r.calls == listed + Interleave(StatsPhase(script, delay).sleeps, StatsPoll(p.guid))
    ensures |r.sleeps| == r.statePolls + r.statsPolls && r.sleeps[r.statePolls] == r.sleeps[r.statePolls - 1]
    ensures PausesOf(r.calls) == r.sleeps
    ensures StagesWithin(r.calls, 4, 6) && InStageOrder(r.calls)
    ensures r.outcome == StatsOutcome(StatsPhase(script, delay).end, p)
  {
    var sp := StatsPhase(script, delay);
    var statsCalls := Interleave(sp.sleeps, StatsPoll(p.guid));
    SingleStageOrdered(statsCalls, 6);
    WidenWithin(statsCalls, 6, 6, 5, 6);
    OrderedAppend(listed, statsCalls, 4, 5, 6);
    PausesOfAppend(listed, statsCalls);
    var calls := listed + statsCalls;
    var sleeps := stateSleeps + sp.sleeps;
    var n := |stateSleeps|;
    assert sleeps[n] == sp.sleeps[0] == delay;
    ReadyReport(StatsOutcome(sp.end, p), calls, sleeps, n, sp.polls)
  }

  /** How the stats phase's ending decides the wait: an API failure passes its error on, running
      out of polls is the not-running timeout, and a RUNNING instance makes `p` the ready process. */
  function StatsOutcome(end: PhaseEnd, p: Process): (r: Result<string, ReadyFailure>)
    ensures end.Aborted? <==> r.Failure? && r.error.ApiFailure?
    ensures end.Aborted? ==> r.error.message == end.message
    ensures end.Exhausted? <==> r == Failure(NotRunning)
    ensures end.Reached? <==> r == Success(p.guid)
  {
    match end
    case Aborted(m) => Failure(ApiFailure(m))
    case Exhausted(_) => Failure(NotRunning)
    case Reached(_) => Success(p.guid)
  }

  /** The pauses `sl` lie in [2000, 15000] and each follows the backoff of the one before. */
  predicate BackoffChain(sl: seq<int>)
  {
    && (forall j :: 0 <= j < |sl| ==> InDelayRange(sl[j]))
    && (forall j :: 0 <= j < |sl| - 1 ==> sl[j + 1] == NextDelay(sl[j]))
  }

  /** The pauses of one polling phase form a backoff chain that starts at the delay it was given. */
  lemma PhasePausesChain(verdicts: nat -> Verdict, limit: nat, delay: int)
    requires 0 < limit && InDelayRange(delay)
    ensures BackoffChain(PollPhase(verdicts, limit, 0, delay).sleeps)
    ensures PollPhase(verdicts, limit, 0, delay).sleeps[0] == delay
  {
  }

  /** Two backoff chains one after the other: every pause stays in range, and the chain property
      holds everywhere except at the seam. */
  lemma {:induction false} ChainsJoin(a: seq<int>, b: seq<int>)
    requires BackoffChain(a) && BackoffChain(b)
    ensures forall j :: 0 <= j < |a + b| ==> InDelayRange((a + b)[j])
    ensures forall j :: 0 <= j < |a + b| - 1 && j + 1 != |a| ==> (a + b)[j + 1] == NextDelay((a + b)[j])
  {
    var c := a + b;
    forall j | 0 <= j < |c|
      ensures InDelayRange(c[j])
    {
      if j < |a| {
        assert c[j] == a[j];
      } else {
        assert c[j] == b[j - |a|];
      }
    }
    forall j | 0 <= j < |c| - 1 && j + 1 != |a|
      ensures c[j + 1] == NextDelay(c[j])
    {
      if j + 1 < |a| {
        assert c[j] == a[j] && c[j + 1] == a[j + 1];
      } else {
        assert c[j] == b[j - |a|] && c[j + 1] == b[j + 1 - |a|];
      }
    }
  }

  /** Every pause of a wait is within [2000, 15000]; the first is 2000; each later pause is the
      backoff of the one before, except that the first pause after the state phase repeats its last. */
  lemma {:induction false} WaitPausesBounded(appGuid: string, script: ReadyScript)
    ensures var r := WaitReady(appGuid, script);
            && r.sleeps[0] == InitialDelay
            && (forall j :: 0 <= j < |r.sleeps| ==> InDelayRange(r.sleeps[j]))
            && (forall j :: 0 <= j < |r.sleeps| - 1 && j + 1 != r.statePolls ==> r.sleeps[j + 1] == NextDelay(r.sleeps[j]))
  {
    var r := WaitReady(appGuid, script);
    var st := StatePhase(script);
    PhasePausesChain(StateVerdicts(script), StatePollLimit, InitialDelay);
    var tail := WaitTailChain(appGuid, script);
    ChainsJoin(st.sleeps, tail);
    assert r.sleeps[0] == st.sleeps[0];
  }

  /** The requests a wait for the app `appGuid` issues, read off its two polling phases: a pause
      and a state poll of the app per state poll; once it reports STARTED, the app's process
      listing; then nothing more when the listing failed, one pause of the delay in force when it
      was empty, or a pause and a stats poll of the primary process per stats poll. */
  function WaitCalls(appGuid: string, script: ReadyScript): seq<Call>
  {
    var st := StatePhase(script);
    var stateCalls := Interleave(st.sleeps, StatePoll(appGuid));
    if !st.end.Reached? then stateCalls
    else stateCalls + [ProcessListing(appGuid)] + LaterCalls(script, st.end.delay)
  }

  /** The requests after the process listing, with `delay` in force: none when the listing failed,
      one pause when it was empty, else a pause and a stats poll of the primary process per poll. */
  function LaterCalls(script: ReadyScript, delay: int): seq<Call>
    requires InDelayRange(delay)
  {
    match script.processes
    case ProcessesFailed(_) => []
    case ProcessesAre(ps) =>
      match PrimaryProcess(ps)
      case None => [Pause(delay)]
      case Some(p) => Interleave(StatsPhase(script, delay).sleeps, StatsPoll(p.guid))
  }

  /** Every state poll asks for the started app, after its own pause; the state polls fill the first
      two entries per poll, and the process listing of the same app follows once it is STARTED. */
  lemma {:induction false} WaitPollsTheApp(appGuid: string, script: ReadyScript)
    ensures var c := WaitCalls(appGuid, script);
            var st := StatePhase(script);
            && |c| >= 2 * |st.sleeps|
            && (forall k :: 0 <= k < |st.sleeps| ==> c[2 * k] == Pause(st.sleeps[k]) && c[2 * k + 1] == StatePoll(appGuid))
            && (!st.end.Reached? <==> |c| == 2 * |st.sleeps|)
            && (st.end.Reached? ==> c[2 * |st.sleeps|] == ProcessListing(appGuid))
  {
    var c := WaitCalls(appGuid, script);
    var st := StatePhase(script);
    var stateCalls := Interleave(st.sleeps, StatePoll(appGuid));
    InterleaveShape(st.sleeps, StatePoll(appGuid));
    forall k | 0 <= k < |st.sleeps|
      ensures c[2 * k] == Pause(st.sleeps[k]) && c[2 * k + 1] == StatePoll(appGuid)
    {
      assert c[2 * k] == stateCalls[2 * k] && c[2 * k + 1] == stateCalls[2 * k + 1];
    }
  }

  /** The pauses of a wait after its state phase form a backoff chain of their own. */
  lemma {:induction false} WaitTailChain(appGuid: string, script: ReadyScript) returns (tail: seq<int>)
    ensures var r := WaitReady(appGuid, script);
            && tail == r.sleeps[r.statePolls..] && r.sleeps == StatePhase(script).sleeps + tail
            && BackoffChain(tail)
  {
    var r := WaitReady(appGuid, script);
    var st := StatePhase(script);
    var n := r.statePolls;
    tail := r.sleeps[n..];
    assert r.sleeps == st.sleeps + tail by {
      assert r.sleeps == r.sleeps[..n] + r.sleeps[n..];
    }
    if r.statsPolls > 0 {
      StatsTailChain(appGuid, script);
    } else if r.outcome == Failure(NoProcess) {
      NoProcessTailChain(appGuid, script);
    } else {
      assert tail == [];
    }
  }

  /** With a stats phase, the pauses after the state phase are that phase's backoff chain. */
  lemma StatsTailChain(appGuid: string, script: ReadyScript)
    requires WaitReady(appGuid, script).statsPolls > 0
    ensures var r := WaitReady(appGuid, script);
            BackoffChain(r.sleeps[r.statePolls..])
  {
    var st := StatePhase(script);
    PhasePausesChain(StatsVerdicts(script), StatsPollLimit, st.end.delay);
  }

  /** Without a process, the one pause after the state phase repeats its last delay. */
  lemma NoProcessTailChain(appGuid: string, script: ReadyScript)
    requires WaitReady(appGuid, script).outcome == Failure(NoProcess)
    ensures var r := WaitReady(appGuid, script);
            BackoffChain(r.sleeps[r.statePolls..])
  {
    var r := WaitReady(appGuid, script);
    var st := StatePhase(script);
    var last := |st.sleeps| - 1;
    assert InDelayRange(st.sleeps[last]) by {
      PhasePausesChain(StateVerdicts(script), StatePollLimit, InitialDelay);
    }
    assert st.end.delay == st.sleeps[last];
    assert r.sleeps[r.statePolls..] == [st.end.delay];
  }

  /** An app that never reports STARTED within the eight polls fails as "not started", after
      exactly eight polls and no process request. */
  lemma {:induction false} NeverStartedFails(appGuid: string, script: ReadyScript)
    requires forall j :: 0 <= j < StatePollLimit ==> script.statePolls(j).AppStateIs? && script.statePolls(j).state != "STARTED"
    ensures WaitReady(appGuid, script).outcome == Failure(NotStarted(script.statePolls(StatePollLimit - 1).state))
    ensures WaitReady(appGuid, script).statePolls == StatePollLimit
    ensures WaitReady(appGuid, script).statsPolls == 0
  {
    PhaseExhaustsBudget(StateVerdicts(script), StatePollLimit, 0, InitialDelay);
  }

  /** An app that reports STARTED at poll `k` but whose primary process never has a RUNNING instance
      within the ten stats polls fails as "not running", a failure distinct from "not started". */
  lemma {:induction false} NeverRunningFails(appGuid: string, script: ReadyScript, k: nat)
    requires k < StatePollLimit && script.statePolls(k) == AppStateIs("STARTED")
    requires forall j :: 0 <= j < k ==> script.statePolls(j).AppStateIs? && script.statePolls(j).state != "STARTED"
    requires script.processes.ProcessesAre? && script.processes.processes != []
    requires forall j :: 0 <= j < StatsPollLimit ==> script.statsPolls(j).InstancesAre? && "RUNNING" !in script.statsPolls(j).states
    ensures WaitReady(appGuid, script).outcome == Failure(NotRunning)
    ensures WaitReady(appGuid, script).statePolls == k + 1
    ensures WaitReady(appGuid, script).statsPolls == StatsPollLimit
  {
    var st := StatePhase(script);
    StartedAt(script, k);
    PhaseExhaustsBudget(StatsVerdicts(script), StatsPollLimit, 0, st.end.delay);
  }

  /** The state phase ends at the first STARTED reply when every earlier reply was another state. */
  lemma {:induction false} StartedAt(script: ReadyScript, k: nat)
    requires k < StatePollLimit && script.statePolls(k) == AppStateIs("STARTED")
    requires forall j :: 0 <= j < k ==> script.statePolls(j).AppStateIs? && script.statePolls(j).state != "STARTED"
    ensures StatePhase(script).end.Reached? && StatePhase(script).polls == k + 1
  {
    var st := StatePhase(script);
    var v := StateVerdicts(script);
    assert v(k).Ready?;
    assert forall j :: 0 <= j < k ==> v(j).NotYet?;
  }
}
