/** The fleet monitor: for every configured application, skip it while its breaker is open,
    otherwise probe it and, when it is down, restart it (one retry), logging each observation and
    feeding the outcome back into the breaker. */
module Monitor {
  import opened Common
  import opened Regions
  import opened Platform
  import opened Store
  import opened Circuit
  import opened Health
  import opened Restart

  /** The operator recorded for restarts the monitor performs. */
  const MonitorOperator := "system"

  /** The pause between a failed first restart and the retry. */
  const RetryPause := 3000

  /** The pause after each application that was probed and found down. */
  const MonitorPause := 1000

  /** What the world does while one application is handled: the instant the breaker is read, the
      probe's attempts, the replies of the first restart and of the retry, and the instant a
      failure is counted. */
  datatype MonitorRun = MonitorRun(checkAt: int, probe: nat -> Attempt, first: RestartScript, second: RestartScript, writeAt: int)

  /** The per-application result ("skipped", "healthy", "restarted" on attempt 1 or 2, "error"). */
  datatype MonitorStatus = Suspended | Up | Recovered(attempt: nat) | Down(error: RestartFailure)

  /** One entry of the result list, with the requests and pauses issued for it. */
  datatype MonitorEntry = MonitorEntry(app: string, status: MonitorStatus, calls: seq<Call>)

  /** One step of the sweep: its entry and the bindings after it. */
  datatype MonitorResult = MonitorResult(entry: MonitorEntry, env: Env)

  /** The result list, the bindings after the sweep, and the bindings before each step and after the last. */
  datatype MonitorReport = MonitorReport(entries: seq<MonitorEntry>, env: Env, trail: seq<Env>)

  /** The breaker key of a configured application. */
  function KeyOf(app: App): AppKey
  {
    AppKey(AppRegion(app), app.name)
  }

  /** The bindings keep their shape and the run lock: a namespace stays bound or unbound, and the
      lock entry is the same. */
  predicate KeepsLock(a: Env, b: Env)
  {
    && (a.logs.Some? <==> b.logs.Some?)
    && (a.records.Some? <==> b.records.Some?)
    && (a.logs.Some? ==> b.logs.value.lock == a.logs.value.lock)
  }

  /** Handles one application (see `StepOutcome` for what a restart does to the bindings). */
  function MonitorStep(app: App, run: MonitorRun, env: Env): (r: MonitorResult)
    ensures r.entry.app == app.name
    ensures r.entry.status.Suspended? <==> IsBroken(env.logs, KeyOf(app), run.checkAt)
    ensures r.entry.status.Suspended? ==>
              && r.entry.calls == []
              && r.env == Env(AppendLog(env.logs, LogEntry(app.name, Skipped)), env.records)
    ensures r.entry.status.Up? <==>
              !IsBroken(env.logs, KeyOf(app), run.checkAt) && Probe(DefaultConfig, run.probe).healthy
    ensures r.entry.status.Up? ==>
              && r.entry.calls == ProbeCalls(app.url, Probe(DefaultConfig, run.probe).sleeps)
              && r.env == Env(AppendLog(env.logs, LogEntry(app.name, Healthy)), env.records)
    ensures r.entry.status.Recovered? ==> r.entry.status.attempt == 1 || r.entry.status.attempt == 2
    ensures KeepsLock(env, r.env)
    ensures forall k :: k != KeyOf(app) ==> SameCircuit(env.logs, r.env.logs, k)
  {
    var key := KeyOf(app);
    if IsBroken(env.logs, key, run.checkAt) then
      MonitorResult(MonitorEntry(app.name, Suspended, []), Env(AppendLog(env.logs, LogEntry(app.name, Skipped)), env.records))
    else
      var pr := Probe(DefaultConfig, run.probe);
      var probeCalls := ProbeCalls(app.url, pr.sleeps);
      if pr.healthy then
        MonitorResult(MonitorEntry(app.name, Up, probeCalls), Env(AppendLog(env.logs, LogEntry(app.name, Healthy)), env.records))
      else
        var offline := LogAndUpdate(env.logs, LogEntry(app.name, Offline), key, KeepBreaker);
        var first := RestartSingleApp(app, MonitorOperator, run.first, env.records);
        var second := RestartSingleApp(app, MonitorOperator, run.second, env.records);
        var rest := Remediate(app, first, second, run.writeAt, Env(offline, env.records));
        forall k | k != key
          ensures SameCircuit(env.logs, rest.env.logs, k)
        {
          SameCircuitChains(env.logs, offline, rest.env.logs, k);
        }
        MonitorResult(rest.entry.(calls := probeCalls + rest.entry.calls), rest.env)
  }

  /** What follows a log write for the logged application's breaker. */
  datatype BreakerUpdate = KeepBreaker | ResetBreaker | CountFailure(at: int)

  /** Appends `e` to the log, then applies `update` to the breaker of `key`. */
  function LogAndUpdate(ns: Option<LogSpace>, e: LogEntry, key: AppKey, update: BreakerUpdate): (r: Option<LogSpace>)
    ensures r.None? <==> ns.None?
    ensures ns.Some? ==> r.value.lock == ns.value.lock && r.value.log == ns.value.log + [e]
    ensures forall k :: k != key ==> SameCircuit(ns, r, k)
  {
    var logged := AppendLog(ns, e);
    match update
    case KeepBreaker => logged
    case ResetBreaker =>
      var r := RecordSuccess(logged, key);
      FrameThroughLog(ns, logged, r, key);
      r
    case CountFailure(at) =>
      var r := RecordFailure(logged, key, at);
      FrameThroughLog(ns, logged, r, key);
      r
  }

  /** A log append followed by an update of `key` leaves every other key's breaker as it was. */
  lemma FrameThroughLog(ns: Option<LogSpace>, logged: Option<LogSpace>, r: Option<LogSpace>, key: AppKey)
    requires forall k :: SameCircuit(ns, logged, k)
    requires forall k :: k != key ==> SameCircuit(logged, r, k)
    ensures forall k :: k != key ==> SameCircuit(ns, r, k)
  {
    forall k | k != key
      ensures SameCircuit(ns, r, k)
    {
      SameCircuitChains(ns, logged, r, k);
    }
  }

  /** The restart of an application found down, given the outcomes of the first attempt and of the
      retry (used only when the first fails); `env` already holds the "offline" entry. The calls
      are those after the probe. */
  function Remediate(app: App, first: RestartOutcome, second: RestartOutcome, writeAt: int, env: Env): (r: MonitorResult)
    requires first.records.None? <==> env.records.None?
    requires second.records.None? <==> env.records.None?
    ensures r.entry.app == app.name
    ensures r.entry.status.Recovered? || r.entry.status.Down?
    ensures r.entry.status.Recovered? ==> r.entry.status.attempt == 1 || r.entry.status.attempt == 2
    ensures |r.entry.calls| > 0 && r.entry.calls[|r.entry.calls| - 1] == Pause(MonitorPause)
    ensures KeepsLock(env, r.env)
    ensures forall k :: k != KeyOf(app) ==> SameCircuit(env.logs, r.env.logs, k)
  {
    var key := KeyOf(app);
    if first.result.Success? then
      var logs := LogAndUpdate(env.logs, LogEntry(app.name, Restarted), key, ResetBreaker);
      MonitorResult(MonitorEntry(app.name, Recovered(1), first.calls + [Pause(MonitorPause)]), Env(logs, first.records))
    else
      var calls := first.calls + [Pause(RetryPause)] + second.calls + [Pause(MonitorPause)];
      if second.result.Success? then
        var logs := LogAndUpdate(env.logs, LogEntry(app.name, Restarted), key, ResetBreaker);
        MonitorResult(MonitorEntry(app.name, Recovered(2), calls), Env(logs, second.records))
      else
        var logs := LogAndUpdate(env.logs, LogEntry(app.name, Errored), key, CountFailure(writeAt));
        MonitorResult(MonitorEntry(app.name, Down(second.result.error), calls), Env(logs, env.records))
  }

  /** An application that is down is restarted; the first attempt that succeeds wins, its record is
      written and the breaker reset; when both fail, the retry's error is reported, the failure is
      counted once and no record is written. */
  lemma StepOutcome(app: App, run: MonitorRun, env: Env)
    requires !IsBroken(env.logs, KeyOf(app), run.checkAt) && !Probe(DefaultConfig, run.probe).healthy
    ensures var r := MonitorStep(app, run, env);
            var logs := AppendLog(env.logs, LogEntry(app.name, Offline));
            && (r.entry.status == Recovered(1) <==> AllStepsSucceed(app, run.first))
            && (r.entry.status == Recovered(2) <==> !AllStepsSucceed(app, run.first) && AllStepsSucceed(app, run.second))
            && (r.entry.status.Down? <==> !AllStepsSucceed(app, run.first) && !AllStepsSucceed(app, run.second))
            && (r.entry.status.Recovered? ==>
                  && r.env.logs == RecordSuccess(AppendLog(logs, LogEntry(app.name, Restarted)), KeyOf(app))
                  && r.env.records == WriteRestartRecord(env.records, KeyOf(app), MonitorOperator,
                                        if r.entry.status.attempt == 1 then run.first.now else run.second.now))
            && (r.entry.status.Down? ==>
                  && r.env.logs == RecordFailure(AppendLog(logs, LogEntry(app.name, Errored)), KeyOf(app), run.writeAt)
                  && r.env.records == env.records
                  && RestartSingleApp(app, MonitorOperator, run.second, env.records).result == Failure(r.entry.status.error))
  {
    var offline := LogAndUpdate(env.logs, LogEntry(app.name, Offline), KeyOf(app), KeepBreaker);
    var first := RestartSingleApp(app, MonitorOperator, run.first, env.records);
    var second := RestartSingleApp(app, MonitorOperator, run.second, env.records);
    RemediateOutcome(app, first, second, run.writeAt, Env(offline, env.records));
  }

  /** The remediation in terms of the two restart outcomes: the first success wins and resets the
      breaker, keeping that attempt's records; two failures count one failure and keep the records. */
  lemma RemediateOutcome(app: App, first: RestartOutcome, second: RestartOutcome, writeAt: int, env: Env)
    requires first.records.None? <==> env.records.None?
    requires second.records.None? <==> env.records.None?
    ensures var r := Remediate(app, first, second, writeAt, env);
            && (r.entry.status == Recovered(1) <==> first.result.Success?)
            && (r.entry.status == Recovered(2) <==> first.result.Failure? && second.result.Success?)
            && (r.entry.status.Down? <==> first.result.Failure? && second.result.Failure?)
            && (r.entry.status == Recovered(1) ==>
                  r.env == Env(RecordSuccess(AppendLog(env.logs, LogEntry(app.name, Restarted)), KeyOf(app)), first.records))
            && (r.entry.status == Recovered(2) ==>
                  r.env == Env(RecordSuccess(AppendLog(env.logs, LogEntry(app.name, Restarted)), KeyOf(app)), second.records))
            && (r.entry.status.Down? ==>
                  && r.env == Env(RecordFailure(AppendLog(env.logs, LogEntry(app.name, Errored)), KeyOf(app), writeAt), env.records)
                  && second.result == Failure(r.entry.status.error))
            && (r.entry.status == Recovered(1) ==> r.entry.calls == first.calls + [Pause(MonitorPause)])
            && (r.entry.status != Recovered(1) ==>
                  r.entry.calls == first.calls + [Pause(RetryPause)] + second.calls + [Pause(MonitorPause)])
  {
  }

  /** The trace of an application found down: the probe's requests, then the first attempt's; when
      that attempt failed, the 3000 ms pause and the retry's requests; and last the 1000 ms pause. */
  lemma StepTrace(app: App, run: MonitorRun, env: Env)
    requires !IsBroken(env.logs, KeyOf(app), run.checkAt) && !Probe(DefaultConfig, run.probe).healthy
    ensures var r := MonitorStep(app, run, env);
            var probeCalls := ProbeCalls(app.url, Probe(DefaultConfig, run.probe).sleeps);
            var first := RestartSingleApp(app, MonitorOperator, run.first, env.records);
            var second := RestartSingleApp(app, MonitorOperator, run.second, env.records);
            && (first.result.Success? ==> r.entry.calls == probeCalls + (first.calls + [Pause(MonitorPause)]))
            && (first.result.Failure? ==>
                  r.entry.calls == probeCalls + (first.calls + [Pause(RetryPause)] + second.calls + [Pause(MonitorPause)]))
  {
    var offline := LogAndUpdate(env.logs, LogEntry(app.name, Offline), KeyOf(app), KeepBreaker);
    var first := RestartSingleApp(app, MonitorOperator, run.first, env.records);
    var second := RestartSingleApp(app, MonitorOperator, run.second, env.records);
    RemediateOutcome(app, first, second, run.writeAt, Env(offline, env.records));
  }

  /** The retry is attempted only after the first restart failed, and after a pause of 3 s. */
  lemma RetryFollowsPause(app: App, run: MonitorRun, env: Env)
    requires !IsBroken(env.logs, KeyOf(app), run.checkAt) && !Probe(DefaultConfig, run.probe).healthy
    requires !AllStepsSucceed(app, run.first)
    ensures var r := MonitorStep(app, run, env);
            var n := |ProbeCalls(app.url, Probe(DefaultConfig, run.probe).sleeps)| +
                     |RestartSingleApp(app, MonitorOperator, run.first, env.records).calls|;
            n < |r.entry.calls| && r.entry.calls[n] == Pause(RetryPause)
  {
  }

  /** One application gets at most two start requests: one per restart attempt. */
  lemma {:induction false} StepStartsAtMostTwice(app: App, run: MonitorRun, env: Env)
    ensures CountIf(MonitorStep(app, run, env).entry.calls, IsStart) <= 2
  {
    var r := MonitorStep(app, run, env);
    if !IsBroken(env.logs, KeyOf(app), run.checkAt) {
      var pr := Probe(DefaultConfig, run.probe);
      var pc := ProbeCalls(app.url, pr.sleeps);
      ProbeStartsNothing(app.url, pr.sleeps);
      if !pr.healthy {
        var first := RestartSingleApp(app, MonitorOperator, run.first, env.records);
        var second := RestartSingleApp(app, MonitorOperator, run.second, env.records);
        StartsAtMostOnce(app, MonitorOperator, run.first, env.records);
        StartsAtMostOnce(app, MonitorOperator, run.second, env.records);
        CountIfAppend(first.calls, [Pause(MonitorPause)], IsStart);
        CountIfAppend(first.calls, [Pause(RetryPause)], IsStart);
        CountIfAppend(first.calls + [Pause(RetryPause)], second.calls, IsStart);
        CountIfAppend(first.calls + [Pause(RetryPause)] + second.calls, [Pause(MonitorPause)], IsStart);
        var offline := LogAndUpdate(env.logs, LogEntry(app.name, Offline), KeyOf(app), KeepBreaker);
        var rest := Remediate(app, first, second, run.writeAt, Env(offline, env.records));
        CountIfAppend(pc, rest.entry.calls, IsStart);
      }
    }
  }

  /** Step `i` of a sweep over `apps` started from `trail[i]`, produced `entries[i]` and left `trail[i + 1]`. */
  predicate StepAt(apps: seq<App>, runs: nat -> MonitorRun, offset: nat, entries: seq<MonitorEntry>, trail: seq<Env>, i: nat)
    requires i < |apps| && i < |entries| && i + 1 < |trail|
  {
    MonitorStep(apps[i], runs(offset + i), trail[i]) == MonitorResult(entries[i], trail[i + 1])
  }

  /** The sweep over `apps` in order; step `i` sees the world as `runs(offset + i)` describes it. */
  function MonitorLoop(apps: seq<App>, runs: nat -> MonitorRun, offset: nat, env: Env): (r: MonitorReport)
    ensures |r.entries| == |apps| && |r.trail| == |apps| + 1
    ensures r.trail[0] == env && r.trail[|apps|] == r.env
    ensures forall i :: 0 <= i < |apps| ==> r.entries[i].app == apps[i].name
    ensures forall i :: 0 <= i < |apps| ==> StepAt(apps, runs, offset, r.entries, r.trail, i)
    decreases |apps|
  {
    if apps == [] then MonitorReport([], env, [env])
    else
      var st := MonitorStep(apps[0], runs(offset), env);
      var rest := MonitorLoop(apps[1..], runs, offset + 1, st.env);
      var r := MonitorReport([st.entry] + rest.entries, rest.env, [env] + rest.trail);
      LoopLinks(apps, runs, offset, env, st, rest, r);
      r
  }

  /** The steps of the rest of the sweep, shifted by one, are the steps of the whole sweep. */
  lemma {:induction false} LoopLinks(apps: seq<App>, runs: nat -> MonitorRun, offset: nat, env: Env,
                                     st: MonitorResult, rest: MonitorReport, r: MonitorReport)
    requires |apps| > 0 && st == MonitorStep(apps[0], runs(offset), env)
    requires |rest.entries| == |apps| - 1 && |rest.trail| == |apps| && rest.trail[0] == st.env
    requires var tail, next := apps[1..], offset + 1;
             forall i :: 0 <= i < |rest.entries| ==> StepAt(tail, runs, next, rest.entries, rest.trail, i)
    requires r == MonitorReport([st.entry] + rest.entries, rest.env, [env] + rest.trail)
    ensures forall i :: 0 <= i < |apps| ==> StepAt(apps, runs, offset, r.entries, r.trail, i)
  {
    forall i | 0 <= i < |apps|
      ensures StepAt(apps, runs, offset, r.entries, r.trail, i)
    {
      if i == 0 {
        assert r.entries[0] == st.entry && r.trail[0] == env && r.trail[1] == st.env;
        assert runs(offset + 0) == runs(offset);
      } else {
        assert StepAt(apps[1..], runs, offset + 1, rest.entries, rest.trail, i - 1);
        LinkShift(apps, runs, offset, rest, r, i);
      }
    }
  }

  /** Step `i` of the whole sweep is step `i - 1` of the sweep over the tail. */
  lemma {:induction false} LinkShift(apps: seq<App>, runs: nat -> MonitorRun, offset: nat, rest: MonitorReport, r: MonitorReport, i: nat)
    requires 0 < i < |apps| && |rest.entries| == |apps| - 1 && |rest.trail| == |apps|
    requires |r.entries| == |apps| && |r.trail| == |apps| + 1
    requires r.entries[1..] == rest.entries && r.trail[1..] == rest.trail
    requires StepAt(apps[1..], runs, offset + 1, rest.entries, rest.trail, i - 1)
    ensures StepAt(apps, runs, offset, r.entries, r.trail, i)
  {
    var j := i - 1;
    assert apps[i] == apps[1..][j] && r.entries[i] == rest.entries[j];
    assert r.trail[i] == rest.trail[j] && r.trail[i + 1] == rest.trail[j + 1];
    assert offset + i == offset + 1 + j;
  }

  /** The source's `monitorAllApps`: one sweep over the configured applications. */
  function MonitorAllApps(runs: nat -> MonitorRun, env: Env): (r: MonitorReport)
    ensures |r.entries| == |MonitoredApps| && |r.trail| == |MonitoredApps| + 1
    ensures r.trail[0] == env && r.trail[|MonitoredApps|] == r.env
    ensures forall i :: 0 <= i < |MonitoredApps| ==> r.entries[i].app == MonitoredApps[i].name
    ensures forall i :: 0 <= i < |MonitoredApps| ==> StepAt(MonitoredApps, runs, 0, r.entries, r.trail, i)
  {
    MonitorLoop(MonitoredApps, runs, 0, env)
  }

  function IsUp(e: MonitorEntry): bool { e.status.Up? }
  function IsRecovered(e: MonitorEntry): bool { e.status.Recovered? }
  function IsDown(e: MonitorEntry): bool { e.status.Down? }
  function IsSuspended(e: MonitorEntry): bool { e.status.Suspended? }

  /** The healthy, restarted, error and skip counts of the summary add up to the number of applications. */
  lemma {:induction false} SummaryCountsAddUp(apps: seq<App>, runs: nat -> MonitorRun, offset: nat, env: Env)
    ensures var es := MonitorLoop(apps, runs, offset, env).entries;
            CountIf(es, IsUp) + CountIf(es, IsRecovered) + CountIf(es, IsDown) + CountIf(es, IsSuspended) == |apps|
  {
    var es := MonitorLoop(apps, runs, offset, env).entries;
    CountIfPartition4(es, IsUp, IsRecovered, IsDown, IsSuspended);
  }

  /** A sweep neither binds nor unbinds a namespace and never touches the run lock. */
  lemma {:induction false} SweepKeepsLock(apps: seq<App>, runs: nat -> MonitorRun, offset: nat, env: Env)
    ensures KeepsLock(env, MonitorLoop(apps, runs, offset, env).env)
    decreases |apps|
  {
    if apps != [] {
      var st := MonitorStep(apps[0], runs(offset), env);
      var rest := MonitorLoop(apps[1..], runs, offset + 1, st.env);
      assert MonitorLoop(apps, runs, offset, env).env == rest.env;
      SweepKeepsLock(apps[1..], runs, offset + 1, st.env);
    }
  }

  /** The breaker state of a key that belongs to no application of the sweep is the same after it. */
  lemma {:induction false} SweepLeavesOtherKeys(apps: seq<App>, runs: nat -> MonitorRun, offset: nat, env: Env, k: AppKey)
    requires forall j :: 0 <= j < |apps| ==> k != KeyOf(apps[j])
    ensures SameCircuit(env.logs, MonitorLoop(apps, runs, offset, env).env.logs, k)
    decreases |apps|
  {
    if apps != [] {
      var st := MonitorStep(apps[0], runs(offset), env);
      assert k != KeyOf(apps[0]);
      assert SameCircuit(env.logs, st.env.logs, k);
      forall j | 0 <= j < |apps[1..]|
        ensures k != KeyOf(apps[1..][j])
      {
        assert apps[1..][j] == apps[j + 1];
      }
      var rest := MonitorLoop(apps[1..], runs, offset + 1, st.env);
      assert MonitorLoop(apps, runs, offset, env).env == rest.env;
      SweepLeavesOtherKeys(apps[1..], runs, offset + 1, st.env, k);
      SameCircuitChains(env.logs, st.env.logs, rest.env.logs, k);
    }
  }

  /** A skipped application gets no request, no change to its breaker and only a "skipped" log entry. */
  lemma {:induction false} SkippedOnlyLogs(apps: seq<App>, runs: nat -> MonitorRun, offset: nat, env: Env, i: nat)
    requires i < |apps|
    requires MonitorLoop(apps, runs, offset, env).entries[i].status.Suspended?
    ensures var r := MonitorLoop(apps, runs, offset, env);
            && r.entries[i].calls == []
            && r.trail[i + 1].records == r.trail[i].records
            && r.trail[i + 1].logs == AppendLog(r.trail[i].logs, LogEntry(apps[i].name, Skipped))
  {
    var r := MonitorLoop(apps, runs, offset, env);
    assert StepAt(apps, runs, offset, r.entries, r.trail, i);
  }

  /** Every application of a sweep gets at most two start requests. */
  lemma {:induction false} SweepStartsAtMostTwicePerApp(apps: seq<App>, runs: nat -> MonitorRun, offset: nat, env: Env, i: nat)
    requires i < |apps|
    ensures CountIf(MonitorLoop(apps, runs, offset, env).entries[i].calls, IsStart) <= 2
  {
    var r := MonitorLoop(apps, runs, offset, env);
    assert StepAt(apps, runs, offset, r.entries, r.trail, i);
    StepStartsAtMostTwice(apps[i], runs(offset + i), r.trail[i]);
  }
}
