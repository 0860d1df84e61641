/** The restart orchestrator for one application: validate the region, then token, GUID lookup,
    stop, settle, start, readiness wait and health check; a restart record is written only after
    the health check passes, and every failure reaches the caller. */
module Restart {
  import opened Common
  import opened Regions
  import opened Platform
  import opened Health
  import opened Ready
  import opened Store

  /** The pause between the stop and the start request. */
  const SettleDelay := 3000

  /** Everything the outside world answers during one restart, and the instant the record is written. */
  datatype RestartScript = RestartScript(
    token: TokenReply,
    lookup: LookupReply,
    stop: ActionReply,
    start: ActionReply,
    ready: ReadyScript,
    health: nat -> Attempt,
    now: int)

  /** Why a restart failed; each is thrown to the caller. */
  datatype RestartFailure =
    | InvalidRegion(code: string)
    | AuthFailed(message: string)
    | LookupFailedWith(message: string)
    | AppNotFound(name: string)
    | StopRejected(message: string)
    | StartRejected(message: string)
    | NotReady(reason: ReadyFailure)
    | UnhealthyAfterRestart

  /** The result (the region code on success), the effects issued in order, and the restart records. */
  datatype RestartOutcome = RestartOutcome(
    result: Result<string, RestartFailure>,
    calls: seq<Call>,
    records: Option<Records>)

  /** The requests of a health probe: an attempt, then a pause and an attempt per retry. */
  function ProbeCalls(url: string, sleeps: seq<int>): (calls: seq<Call>)
    ensures |calls| == 2 * |sleeps| + 1 && calls[0] == HealthAttempt(url)
    ensures calls[|calls| - 1] == HealthAttempt(url)
    ensures StagesWithin(calls, 7, 7) && InStageOrder(calls)
    ensures PausesOf(calls) == sleeps
  {
    var rest := Interleave(sleeps, HealthAttempt(url));
    InterleaveEndsWithPoll(sleeps, HealthAttempt(url));
    SingleStageOrdered(rest, 7);
    OrderedAppend([HealthAttempt(url)], rest, 7, 7, 7);
    var calls := [HealthAttempt(url)] + rest;
    assert calls[1..] == rest;
    calls
  }

  /** Every remote step of a restart succeeded: token, lookup (with a match), stop, start, the
      readiness wait on the first matching app, and the health check. */
  predicate StepsSucceed(s: RestartScript)
  {
    && s.token.TokenGranted?
    && s.lookup.AppsFound? && s.lookup.guids != []
    && s.stop.ActionDone?
    && s.start.ActionDone?
    && WaitReady(s.lookup.guids[0], s.ready).outcome.Success?
    && Probe(DefaultConfig, s.health).healthy
  }

  /** The region is valid and every remote step succeeded. */
  predicate AllStepsSucceed(app: App, s: RestartScript)
  {
    IsRegion(AppRegion(app)) && StepsSucceed(s)
  }

  /** The source's `restartSingleApp` for `app` on behalf of `operator`. */
  function RestartSingleApp(app: App, operator: string, s: RestartScript, records: Option<Records>): (r: RestartOutcome)
    ensures !IsRegion(AppRegion(app)) ==>
              r.result == Failure(InvalidRegion(AppRegion(app))) && r.calls == [] && r.records == records
    ensures IsRegion(AppRegion(app)) ==>
              |r.calls| > 0 && r.calls[0] == TokenRequest(Lookup(AppRegion(app)).value.uaa)
    ensures StagesWithin(r.calls, 0, 7) && InStageOrder(r.calls)
    ensures forall i :: 0 <= i < |r.calls| && r.calls[i].StartApp? ==>
              i == 4 && r.calls[3] == Pause(SettleDelay) && r.calls[2] == StopApp(r.calls[i].guid)
    ensures r.result.Success? <==> AllStepsSucceed(app, s)
    ensures r.result.Success? ==> r.result.value == AppRegion(app)
    ensures r.result.Success? ==> |r.calls| > 0 && r.calls[|r.calls| - 1] == HealthAttempt(app.url)
    ensures r.result.Failure? ==> r.records == records
    ensures r.result.Success? ==> r.records == WriteRestartRecord(records, AppKey(AppRegion(app), app.name), operator, s.now)
    ensures r.records.None? <==> records.None?
  {
    var code := AppRegion(app);
    match Lookup(code)
    case None => RestartOutcome(Failure(InvalidRegion(code)), [], records)
    case Some(region) => RestartInRegion(app, code, region, operator, s, records)
  }

  /** Which failure a restart in a known region reports: the first refused request, ending the
      trace; else the readiness failure after the whole wait; else the failed health check. */
  lemma RestartSingleFailures(app: App, operator: string, s: RestartScript, records: Option<Records>)
    requires IsRegion(AppRegion(app))
    ensures var r := RestartSingleApp(app, operator, s, records);
            var uaa := Lookup(AppRegion(app)).value.uaa;
            var rd := WaitReady(TargetGuid(s), s.ready);
            && (EarlyStop(s, app.name).Some? ==>
                  && r.result == Failure(EarlyStop(s, app.name).value.0)
                  && r.calls == StartSteps(uaa, app.name, TargetGuid(s))[..EarlyStop(s, app.name).value.1])
            && (EarlyStop(s, app.name).None? && rd.outcome.Failure? ==>
                  && r.result == Failure(NotReady(rd.outcome.error))
                  && r.calls == StartSteps(uaa, app.name, TargetGuid(s)) + rd.calls)
            && (EarlyStop(s, app.name).None? && rd.outcome.Success? && !Probe(DefaultConfig, s.health).healthy ==>
                  r.result == Failure(UnhealthyAfterRestart))
  {
    var region := Lookup(AppRegion(app)).value;
    var g := TargetGuid(s);
    var c := StartSteps(region.uaa, app.name, g);
    match EarlyStop(s, app.name)
    case Some((f, n)) =>
      assert RestartSingleApp(app, operator, s, records) == StoppedEarly(c, f, n, records);
    case None =>
      var rd := WaitReady(g, s.ready);
      var pr := Probe(DefaultConfig, s.health);
      assert RestartSingleApp(app, operator, s, records)
          == AfterStart(AppKey(AppRegion(app), app.name), app.url, operator, s.now, records, c, rd, pr);
  }

  /** The application the restart acts on: the first the lookup matched. Without a match no request
      names it, so the placeholder is never issued. */
  function TargetGuid(s: RestartScript): string
  {
    if s.lookup.AppsFound? && s.lookup.guids != [] then s.lookup.guids[0] else ""
  }

  /** The requests up to and including the start. */
  function StartSteps(uaa: string, name: string, g: string): (c: seq<Call>)
    ensures |c| == 5 && c[0] == TokenRequest(uaa)
    ensures c[4] == StartApp(g) && c[3] == Pause(SettleDelay) && c[2] == StopApp(g)
    ensures forall i :: 0 <= i < 4 ==> !c[i].StartApp?
    ensures InStageOrder(c) && StagesWithin(c, 0, 3)
  {
    var c := [TokenRequest(uaa), GuidLookup(name), StopApp(g), Pause(SettleDelay), StartApp(g)];
    assert forall i :: 0 <= i < 5 ==> WithinAt(c, i, 0, 3);
    assert forall i, j :: 0 <= i < j < 5 ==> OrderedAt(c, i, j);
    c
  }

  /** The restart once the region `code` is known: token, lookup, stop, settle, start, then the rest. */
  function RestartInRegion(app: App, code: string, region: Region, operator: string, s: RestartScript, records: Option<Records>): (r: RestartOutcome)
    requires Lookup(code) == Some(region)
    ensures |r.calls| > 0 && r.calls[0] == TokenRequest(region.uaa)
    ensures StagesWithin(r.calls, 0, 7) && InStageOrder(r.calls)
    ensures forall i :: 0 <= i < |r.calls| && r.calls[i].StartApp? ==>
              i == 4 && r.calls[3] == Pause(SettleDelay) && r.calls[2] == StopApp(r.calls[i].guid)
    ensures r.result.Success? <==> StepsSucceed(s)
    ensures r.result.Success? ==> r.result.value == code
    ensures r.result.Success? ==> |r.calls| > 0 && r.calls[|r.calls| - 1] == HealthAttempt(app.url)
    ensures r.result.Failure? ==> r.records == records
    ensures r.result.Success? ==> r.records == WriteRestartRecord(records, AppKey(code, app.name), operator, s.now)
    ensures r.records.None? <==> records.None?
  {
    var g := TargetGuid(s);
    var c := StartSteps(region.uaa, app.name, g);
    match EarlyStop(s, app.name)
    case Some((f, n)) => StoppedEarly(c, f, n, records)
    case None =>
      var r := AfterStart(AppKey(code, app.name), app.url, operator, s.now, records, c,
                          WaitReady(g, s.ready), Probe(DefaultConfig, s.health));
      assert r.calls[2] == StopApp(g) && r.calls[3] == Pause(SettleDelay) && r.calls[4] == StartApp(g);
      r
  }

  /** A restart that failed with `f` after the first `n` entries of `c`. */
  function StoppedEarly(c: seq<Call>, f: RestartFailure, n: nat, records: Option<Records>): (r: RestartOutcome)
    requires |c| == 5 && InStageOrder(c) && StagesWithin(c, 0, 3)
    requires forall i :: 0 <= i < 4 ==> !c[i].StartApp?
    requires 1 <= n <= 5 && n != 4
    ensures r.result == Failure(f) && r.records == records
    ensures r.calls == c[..n]
    ensures |r.calls| == n && forall i :: 0 <= i < n ==> r.calls[i] == c[i]
    ensures StagesWithin(r.calls, 0, 7) && InStageOrder(r.calls)
  {
    PrefixOrdered(c, n, 0, 3);
    WidenWithin(c[..n], 0, 3, 0, 7);
    RestartOutcome(Failure(f), c[..n], records)
  }

  /** The failure of the first of the token, lookup, stop and start steps that failed, with the
      number of requests and pauses issued up to and including it. */
  function EarlyStop(s: RestartScript, name: string): (e: Option<(RestartFailure, nat)>)
    ensures e.Some? ==> 1 <= e.value.1 <= 5 && e.value.1 != 4
    ensures e.None? <==> (s.token.TokenGranted? && s.lookup.AppsFound? && s.lookup.guids != []
                           && s.stop.ActionDone? && s.start.ActionDone?)
    ensures s.token.TokenRefused? ==> e == Some((AuthFailed(s.token.message), 1))
    ensures s.token.TokenGranted? && s.lookup.LookupFailed? ==> e == Some((LookupFailedWith(s.lookup.message), 2))
    ensures s.token.TokenGranted? && s.lookup.AppsFound? && s.lookup.guids == [] ==> e == Some((AppNotFound(name), 2))
    ensures s.token.TokenGranted? && s.lookup.AppsFound? && s.lookup.guids != [] && s.stop.ActionFailed? ==>
              e == Some((StopRejected(s.stop.message), 3))
    ensures s.token.TokenGranted? && s.lookup.AppsFound? && s.lookup.guids != [] && s.stop.ActionDone? && s.start.ActionFailed? ==>
              e == Some((StartRejected(s.start.message), 5))
  {
    if s.token.TokenRefused? then Some((AuthFailed(s.token.message), 1))
    else if s.lookup.LookupFailed? then Some((LookupFailedWith(s.lookup.message), 2))
    else if s.lookup.guids == [] then Some((AppNotFound(name), 2))
    else if s.stop.ActionFailed? then Some((StopRejected(s.stop.message), 3))
    else if s.start.ActionFailed? then Some((StartRejected(s.start.message), 5))
    else None
  }

  /** The restart after the start request `c3`, given the readiness wait `rd` and the health probe
      `pr` of `url`: the record for `key` is written only when both succeeded. */
  function AfterStart(key: AppKey, url: string, operator: string, now: int, records: Option<Records>,
                      c3: seq<Call>, rd: ReadyReport, pr: ProbeReport): (r: RestartOutcome)
    requires |c3| == 5 && InStageOrder(c3) && StagesWithin(c3, 0, 3)
    requires forall i :: 0 <= i < 4 ==> !c3[i].StartApp?
    requires StagesWithin(rd.calls, 4, 6) && InStageOrder(rd.calls)
    ensures |r.calls| >= 5 && forall i :: 0 <= i < 5 ==> r.calls[i] == c3[i]
    ensures forall i :: 0 <= i < |r.calls| && r.calls[i].StartApp? ==> i == 4
    ensures StagesWithin(r.calls, 0, 7) && InStageOrder(r.calls)
    ensures r.result.Success? <==> rd.outcome.Success? && pr.healthy
    ensures rd.outcome.Failure? ==> r.result == Failure(NotReady(rd.outcome.error))
    ensures r.result.Success? ==> r.result.value == key.region
    ensures r.result.Success? ==> |r.calls| > 5 && r.calls[|r.calls| - 1] == HealthAttempt(url)
    ensures r.result.Failure? ==> r.records == records
    ensures r.result.Success? ==> r.records == WriteRestartRecord(records, key, operator, now)
    ensures r.records.None? <==> records.None?
    ensures rd.outcome.Failure? ==> r.calls == c3 + rd.calls
    ensures rd.outcome.Success? ==> r.calls == c3 + rd.calls + ProbeCalls(url, pr.sleeps)
    ensures rd.outcome.Success? && !pr.healthy ==> r.result == Failure(UnhealthyAfterRestart)
  {
    var calls := c3 + AfterStartCalls(rd, url, pr.sleeps);
    AfterStartTrace(c3, rd, url, pr.sleeps);
    if rd.outcome.Failure? then RestartOutcome(Failure(NotReady(rd.outcome.error)), calls, records)
    else if pr.healthy then RestartOutcome(Success(key.region), calls, WriteRestartRecord(records, key, operator, now))
    else RestartOutcome(Failure(UnhealthyAfterRestart), calls, records)
  }

  /** The whole trace of a restart that reached the start request `c3`: the start stays the fifth
      entry and the only start, the stages stay in order, and a successful wait ends in a probe. */
  lemma AfterStartTrace(c3: seq<Call>, rd: ReadyReport, url: string, probeSleeps: seq<int>) 
    requires |c3| == 5 && InStageOrder(c3) && StagesWithin(c3, 0, 3)
    requires forall i :: 0 <= i < 4 ==> !c3[i].StartApp?
    requires StagesWithin(rd.calls, 4, 6) && InStageOrder(rd.calls)
    ensures var calls := c3 + AfterStartCalls(rd, url, probeSleeps);
            && |calls| >= 5 && (forall i :: 0 <= i < 5 ==> calls[i] == c3[i])
            && (forall i :: 0 <= i < |calls| && calls[i].StartApp? ==> i == 4)
            && StagesWithin(calls, 0, 7) && InStageOrder(calls)
            && (rd.outcome.Failure? ==> calls == c3 + rd.calls)
            && (rd.outcome.Success? ==> calls == c3 + rd.calls + ProbeCalls(url, probeSleeps))
            && (rd.outcome.Success? ==> |calls| > 5 && calls[|calls| - 1] == HealthAttempt(url))
  {
    var tail := AfterStartCalls(rd, url, probeSleeps);
    WidenWithin(tail, 4, 7, 3, 7);
    OrderedAppend(c3, tail, 0, 3, 7);
    var calls := c3 + tail;
    StartOnlyFifth(c3, tail);
    if rd.outcome.Success? {
      var pc := ProbeCalls(url, probeSleeps);
      assert calls == c3 + rd.calls + pc;
    }
  }

  /** Appending requests of the readiness and health stages adds no start request. */
  lemma StartOnlyFifth(c3: seq<Call>, tail: seq<Call>)
    requires |c3| == 5 && forall i :: 0 <= i < 4 ==> !c3[i].StartApp?
    requires StagesWithin(tail, 4, 7)
    ensures forall i :: 0 <= i < |c3 + tail| && (c3 + tail)[i].StartApp? ==> i == 4
  {
    var calls := c3 + tail;
    forall i | 0 <= i < |calls| && i != 4
      ensures !calls[i].StartApp?
    {
      if i >= 5 {
        assert calls[i] == tail[i - 5] && WithinAt(tail, i - 5, 4, 7);
      }
    }
  }

  /** The requests after the start: the readiness wait's, then (if it succeeded) the probe's. */
  function AfterStartCalls(rd: ReadyReport, url: string, probeSleeps: seq<int>): (calls: seq<Call>)
    requires StagesWithin(rd.calls, 4, 6) && InStageOrder(rd.calls)
    ensures StagesWithin(calls, 4, 7) && InStageOrder(calls)
    ensures rd.outcome.Success? ==> |calls| > 0 && calls[|calls| - 1] == HealthAttempt(url)
    ensures rd.outcome.Failure? ==> calls == rd.calls
    ensures rd.outcome.Success? ==> calls == rd.calls + ProbeCalls(url, probeSleeps)
  {
    if rd.outcome.Failure? then
      WidenWithin(rd.calls, 4, 6, 4, 7);
      rd.calls
    else
      var pc := ProbeCalls(url, probeSleeps);
      WidenWithin(pc, 7, 7, 6, 7);
      OrderedAppend(rd.calls, pc, 4, 6, 7);
      rd.calls + pc
  }

  /** A restart for an application whose region is not in the registry fails before any token request. */
  lemma InvalidRegionIssuesNothing(app: App, operator: string, s: RestartScript, records: Option<Records>)
    requires !Truthy(app.region) && DetectRegion(app.url).None?
    ensures RestartSingleApp(app, operator, s, records).result == Failure(InvalidRegion(Unknown))
    ensures RestartSingleApp(app, operator, s, records).calls == []
  {
    assert !IsRegion(Unknown);
  }

  /** A successful restart writes exactly one record, for the restarted application, carrying the
      operator in lower case and the instant of writing; no other record changes. */
  lemma SuccessWritesOneRecord(app: App, operator: string, s: RestartScript, recs: Records)
    requires AllStepsSucceed(app, s)
    ensures var r := RestartSingleApp(app, operator, s, Some(recs));
            var key := AppKey(AppRegion(app), app.name);
            && r.records.Some? && key in r.records.value
            && r.records.value[key].operator == Lower(operator)
            && r.records.value[key].timestamp == s.now
            && r.records.value - {key} == recs - {key}
  {
  }

  /** The call is a start request. */
  function IsStart(c: Call): bool
  {
    c.StartApp?
  }

  /** One restart issues at most one start request. */
  lemma StartsAtMostOnce(app: App, operator: string, s: RestartScript, records: Option<Records>)
    ensures CountIf(RestartSingleApp(app, operator, s, records).calls, IsStart) <= 1
  {
    var calls := RestartSingleApp(app, operator, s, records).calls;
    CountIfAtMostOne(calls, IsStart, 4);
  }

  /** A step that fails ends the restart at once: the failing request is the last one issued, and
      unless the start itself was refused, no start request was issued. */
  lemma EarlyFailureEndsTrace(app: App, operator: string, s: RestartScript, records: Option<Records>)
    requires IsRegion(AppRegion(app)) && EarlyStop(s, app.name).Some?
    ensures var r := RestartSingleApp(app, operator, s, records);
            && r.result.Failure? && r.records == records
            && (r.result.error.AuthFailed? ==> r.calls == [TokenRequest(Lookup(AppRegion(app)).value.uaa)])
            && (r.result.error.LookupFailedWith? || r.result.error.AppNotFound? ==>
                  |r.calls| == 2 && r.calls[1] == GuidLookup(app.name))
            && (r.result.error.StopRejected? ==> |r.calls| == 3 && r.calls[2] == StopApp(TargetGuid(s)))
            && (r.result.error.StartRejected? ==> |r.calls| == 5 && r.calls[4] == StartApp(TargetGuid(s)))
            && (!r.result.error.StartRejected? ==> forall i :: 0 <= i < |r.calls| ==> !r.calls[i].StartApp?)
  {
    RestartSingleFailures(app, operator, s, records);
    var r := RestartSingleApp(app, operator, s, records);
    var c := StartSteps(Lookup(AppRegion(app)).value.uaa, app.name, TargetGuid(s));
    var n := EarlyStop(s, app.name).value.1;
    assert r.calls == c[..n];
  }

  /** A health probe issues no start request. */
  lemma ProbeStartsNothing(url: string, sleeps: seq<int>)
    ensures CountIf(ProbeCalls(url, sleeps), IsStart) == 0
  {
    var calls := ProbeCalls(url, sleeps);
    forall i | 0 <= i < |calls|
      ensures !IsStart(calls[i])
    {
      assert WithinAt(calls, i, 7, 7);
    }
    CountIfNone(calls, IsStart);
  }
}
