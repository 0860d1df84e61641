/** The region batch: restart every configured application of one region, one after another,
    skipping those whose breaker is open and feeding each outcome back into the breaker. */
module Batch {
  import opened Common
  import opened Regions
  import opened Platform
  import opened Store
  import opened Circuit
  import opened Restart

  /** The pause after each application that was not skipped. */
  const BatchPause := 2000

  /** What the world does while one application of the batch is handled: the instant the breaker
      is read, the replies of its restart, and the instant a failure is counted. */
  datatype AppRun = AppRun(checkAt: int, restart: RestartScript, writeAt: int)

  /** The per-application result: restarted, failed with the restart's error, or skipped. */
  datatype BatchStatus = Succeeded | Failed(error: RestartFailure) | SkippedBroken

  /** One entry of the result list, with the requests and pauses issued for it. */
  datatype BatchEntry = BatchEntry(app: string, status: BatchStatus, calls: seq<Call>)

  /** Why a batch is refused before any application is processed. */
  datatype BatchError = UnknownRegion(code: string) | NoAppsInRegion(code: string)

  /** One step of the loop: its entry and the bindings after it. */
  datatype StepResult = StepResult(entry: BatchEntry, env: Env)

  /** The result list, the bindings after the batch, and the bindings before each step and after
      the last (`trail[i]` is what step `i` started from). */
  datatype BatchReport = BatchReport(entries: seq<BatchEntry>, env: Env, trail: seq<Env>)

  /** The applications of `apps` whose region is `code`, in their configured order. */
  function RegionApps(apps: seq<App>, code: string): (r: seq<App>)
    ensures forall a :: a in r <==> a in apps && AppRegion(a) == code
    ensures |r| == CountIf(apps, (a: App) => AppRegion(a) == code)
  {
    if apps == [] then []
    else (if AppRegion(apps[0]) == code then [apps[0]] else []) + RegionApps(apps[1..], code)
  }

  /** Selecting from a concatenation selects from each part, in order: with `RegionAppsSingle`, this
      pins the selection down as the order-preserving filter of the configured list. */
  lemma {:induction false} RegionAppsAppend(a: seq<App>, b: seq<App>, code: string)
    ensures RegionApps(a + b, code) == RegionApps(a, code) + RegionApps(b, code)
  {
    if a == [] {
      assert a + b == b;
    } else {
      assert (a + b)[0] == a[0];
      assert (a + b)[1..] == a[1..] + b;
      RegionAppsAppend(a[1..], b, code);
    }
  }

  /** One application is selected exactly when it is classified into the region. */
  lemma RegionAppsSingle(a: App, code: string)
    ensures RegionApps([a], code) == if AppRegion(a) == code then [a] else []
  {
    assert [a][1..] == [];
  }

  /** Handles one application of region `code`: skip it while its breaker is open; otherwise
      restart it, then reset the breaker on success or count one failure (see `StepOutcome`). */
  function BatchStep(app: App, code: string, operator: string, run: AppRun, env: Env): (r: StepResult)
    ensures r.entry.app == app.name
    ensures r.entry.status.SkippedBroken? <==> IsBroken(env.logs, AppKey(code, app.name), run.checkAt)
    ensures r.entry.status.SkippedBroken? ==> r.entry.calls == [] && r.env == env
    ensures !r.entry.status.SkippedBroken? ==>
              |r.entry.calls| > 0 && r.entry.calls[|r.entry.calls| - 1] == Pause(BatchPause)
    ensures !r.entry.status.SkippedBroken? ==>
              r.entry.calls == RestartSingleApp(app, operator, run.restart, env.records).calls + [Pause(BatchPause)]
    ensures forall k :: k != AppKey(code, app.name) ==> SameCircuit(env.logs, r.env.logs, k)
  {
    var key := AppKey(code, app.name);
    if IsBroken(env.logs, key, run.checkAt) then StepResult(BatchEntry(app.name, SkippedBroken, []), env)
    else
      var out := RestartSingleApp(app, operator, run.restart, env.records);
      var calls := out.calls + [Pause(BatchPause)];
      match out.result
      case Success(_) =>
        StepResult(BatchEntry(app.name, Succeeded, calls), Env(RecordSuccess(env.logs, key), out.records))
      case Failure(e) =>
        StepResult(BatchEntry(app.name, Failed(e), calls), Env(RecordFailure(env.logs, key, run.writeAt), env.records))
  }

  /** A step that is not skipped succeeds exactly when every step of the restart succeeds; success
      resets the breaker and writes the restart record, failure counts one failure and writes nothing. */
  lemma {:induction false} StepOutcome(app: App, code: string, operator: string, run: AppRun, env: Env)
    ensures var r := BatchStep(app, code, operator, run, env);
            && (r.entry.status.Succeeded? <==>
                  !IsBroken(env.logs, AppKey(code, app.name), run.checkAt) && AllStepsSucceed(app, run.restart))
            && (r.entry.status.Succeeded? ==>
                  && r.env.logs == RecordSuccess(env.logs, AppKey(code, app.name))
                  && r.env.records == WriteRestartRecord(env.records, AppKey(AppRegion(app), app.name), operator, run.restart.now))
            && (r.entry.status.Failed? ==>
                  && r.env.logs == RecordFailure(env.logs, AppKey(code, app.name), run.writeAt)
                  && r.env.records == env.records
                  && RestartSingleApp(app, operator, run.restart, env.records).result == Failure(r.entry.status.error))
  {
  }

  /** Step `i` of a loop over `apps` started from `trail[i]`, produced `entries[i]` and left `trail[i + 1]`. */
  predicate StepAt(apps: seq<App>, code: string, operator: string, runs: nat -> AppRun, offset: nat,
                   entries: seq<BatchEntry>, trail: seq<Env>, i: nat)
    requires i < |apps| && i < |entries| && i + 1 < |trail|
  {
    BatchStep(apps[i], code, operator, runs(offset + i), trail[i]) == StepResult(entries[i], trail[i + 1])
  }

  /** The loop over `apps` in order; step `i` sees the world as `runs(offset + i)` describes it. */
  function BatchLoop(apps: seq<App>, code: string, operator: string, runs: nat -> AppRun, offset: nat, env: Env): (r: BatchReport)
    ensures |r.entries| == |apps| && |r.trail| == |apps| + 1
    ensures r.trail[0] == env && r.trail[|apps|] == r.env
    ensures forall i :: 0 <= i < |apps| ==> r.entries[i].app == apps[i].name
    ensures forall i :: 0 <= i < |apps| ==> StepAt(apps, code, operator, runs, offset, r.entries, r.trail, i)
    decreases |apps|
  {
    if apps == [] then BatchReport([], env, [env])
    else
      var st := BatchStep(apps[0], code, operator, runs(offset), env);
      var rest := BatchLoop(apps[1..], code, operator, runs, offset + 1, st.env);
      var r := BatchReport([st.entry] + rest.entries, rest.env, [env] + rest.trail);
      LoopLinks(apps, code, operator, runs, offset, env, st, rest, r);
      r
  }

  /** The steps of the rest of the loop, shifted by one, are the steps of the whole loop. */
  lemma {:induction false} LoopLinks(apps: seq<App>, code: string, operator: string, runs: nat -> AppRun, offset: nat, env: Env,
                  st: StepResult, rest: BatchReport, r: BatchReport)
    requires |apps| > 0 && st == BatchStep(apps[0], code, operator, runs(offset), env)
    requires |rest.entries| == |apps| - 1 && |rest.trail| == |apps| && rest.trail[0] == st.env
    requires var tail, next := apps[1..], offset + 1;
             forall i :: 0 <= i < |rest.entries| ==> StepAt(tail, code, operator, runs, next, rest.entries, rest.trail, i)
    requires r == BatchReport([st.entry] + rest.entries, rest.env, [env] + rest.trail)
    ensures forall i :: 0 <= i < |apps| ==> StepAt(apps, code, operator, runs, offset, r.entries, r.trail, i)
  {
    forall i | 0 <= i < |apps|
      ensures StepAt(apps, code, operator, runs, offset, r.entries, r.trail, i)
    {
      if i == 0 {
        assert r.entries[0] == st.entry && r.trail[0] == env && r.trail[1] == st.env;
        assert runs(offset + 0) == runs(offset);
      } else {
        var j := i - 1;
        assert StepAt(apps[1..], code, operator, runs, offset + 1, rest.entries, rest.trail, j);
        LinkShift(apps, code, operator, runs, offset, rest, r, i);
      }
    }
  }

  /** Step `i` of the whole loop is step `i - 1` of the loop over the tail. */
  lemma {:induction false} LinkShift(apps: seq<App>, code: string, operator: string, runs: nat -> AppRun, offset: nat,
                                     rest: BatchReport, r: BatchReport, i: nat)
    requires 0 < i < |apps| && |rest.entries| == |apps| - 1 && |rest.trail| == |apps|
    requires |r.entries| == |apps| && |r.trail| == |apps| + 1
    requires r.entries[1..] == rest.entries && r.trail[1..] == rest.trail
    requires StepAt(apps[1..], code, operator, runs, offset + 1, rest.entries, rest.trail, i - 1)
    ensures StepAt(apps, code, operator, runs, offset, r.entries, r.trail, i)
  {
    var j := i - 1;
    assert apps[i] == apps[1..][j] && r.entries[i] == rest.entries[j];
    assert r.trail[i] == rest.trail[j] && r.trail[i + 1] == rest.trail[j + 1];
    assert offset + i == offset + 1 + j;
  }

  /** The source's `restartRegionApps` over the configured list `apps`. */
  function RestartRegionApps(code: string, operator: string, apps: seq<App>, runs: nat -> AppRun, env: Env): (r: Result<BatchReport, BatchError>)
    ensures r == Failure(UnknownRegion(code)) <==> !IsRegion(code)
    ensures r == Failure(NoAppsInRegion(code)) <==> IsRegion(code) && forall a :: a in apps ==> AppRegion(a) != code
    ensures r.Success? ==> |r.value.entries| == |RegionApps(apps, code)| > 0
    ensures r.Success? ==> forall i :: 0 <= i < |r.value.entries| ==> r.value.entries[i].app == RegionApps(apps, code)[i].name
    ensures r.Success? ==> r.value == BatchLoop(RegionApps(apps, code), code, operator, runs, 0, env)
  {
    if Lookup(code).None? then Failure(UnknownRegion(code))
    else
      var ra := RegionApps(apps, code);
      if ra == [] then Failure(NoAppsInRegion(code))
      else
        assert ra[0] in ra;
        Success(BatchLoop(ra, code, operator, runs, 0, env))
  }

  function IsSucceeded(e: BatchEntry): bool { e.status.Succeeded? }
  function IsFailed(e: BatchEntry): bool { e.status.Failed? }
  function IsSkipped(e: BatchEntry): bool { e.status.SkippedBroken? }

  /** The success, failure and skip counts of a batch add up to the number of applications. */
  lemma {:induction false} BatchCountsAddUp(code: string, operator: string, apps: seq<App>, runs: nat -> AppRun, env: Env)
    requires RestartRegionApps(code, operator, apps, runs, env).Success?
    ensures var es := RestartRegionApps(code, operator, apps, runs, env).value.entries;
            CountIf(es, IsSucceeded) + CountIf(es, IsFailed) + CountIf(es, IsSkipped) == |RegionApps(apps, code)|
  {
    var es := RestartRegionApps(code, operator, apps, runs, env).value.entries;
    CountIfPartition(es, IsSucceeded, IsFailed, IsSkipped);
  }

  /** A skipped application gets no request at all and no change to any binding. */
  lemma {:induction false} SkippedTouchesNothing(apps: seq<App>, code: string, operator: string, runs: nat -> AppRun, offset: nat, env: Env, i: nat)
    requires i < |apps|
    requires BatchLoop(apps, code, operator, runs, offset, env).entries[i].status.SkippedBroken?
    ensures var r := BatchLoop(apps, code, operator, runs, offset, env);
            r.entries[i].calls == [] && r.trail[i + 1] == r.trail[i]
  {
    var r := BatchLoop(apps, code, operator, runs, offset, env);
    assert StepAt(apps, code, operator, runs, offset, r.entries, r.trail, i);
  }

  /** The breaker state of a key that is not the key of any application of the batch is the same
      after the batch as before it. */
  lemma {:induction false} BatchLeavesOtherKeys(apps: seq<App>, code: string, operator: string, runs: nat -> AppRun, offset: nat, env: Env, k: AppKey)
    requires forall j :: 0 <= j < |apps| ==> k != AppKey(code, apps[j].name)
    ensures SameCircuit(env.logs, BatchLoop(apps, code, operator, runs, offset, env).env.logs, k)
    decreases |apps|
  {
    if apps != [] {
      var st := BatchStep(apps[0], code, operator, runs(offset), env);
      assert k != AppKey(code, apps[0].name);
      assert SameCircuit(env.logs, st.env.logs, k);
      forall j | 0 <= j < |apps[1..]|
        ensures k != AppKey(code, apps[1..][j].name)
      {
        assert apps[1..][j] == apps[j + 1];
      }
      var rest := BatchLoop(apps[1..], code, operator, runs, offset + 1, st.env);
      assert BatchLoop(apps, code, operator, runs, offset, env).env == rest.env;
      BatchLeavesOtherKeys(apps[1..], code, operator, runs, offset + 1, st.env, k);
      SameCircuitChains(env.logs, st.env.logs, rest.env.logs, k);
    }
  }

  /** A region batch never touches the breaker of an application of another region. */
  lemma RegionBatchLeavesOtherRegions(code: string, operator: string, apps: seq<App>, runs: nat -> AppRun, env: Env, k: AppKey)
    requires RestartRegionApps(code, operator, apps, runs, env).Success?
    requires k.region != code
    ensures SameCircuit(env.logs, RestartRegionApps(code, operator, apps, runs, env).value.env.logs, k)
  {
    BatchLeavesOtherKeys(RegionApps(apps, code), code, operator, runs, 0, env, k);
  }

  /** Only "US" application of the configured list is `us0`, and the only "AP" one is `s1`. */
  lemma ConfiguredRegionsHaveOneAppEach()
    ensures RegionApps(MonitoredApps, "US") == [MonitoredApps[1]]
    ensures RegionApps(MonitoredApps, "AP") == [MonitoredApps[0]]
  {
    ConfiguredAppsClassified();
    assert MonitoredApps[1..][1..] == [];
  }
}
