# SAP Cloud Foundry keep-alive workers — a Dafny model

This project models the supervision and remediation logic of two Cloudflare workers that keep
SAP BTP Cloud Foundry trial applications alive.

`sap-keep6-worker.js` covers these parts:

- The region registry and URL classifier.
- The health probe with bounded retries.
- The per-application circuit breaker, kept in the `MONITOR_LOGS` namespace.
- The readiness poller, with two polling phases and a shared backoff.
- The restart orchestrator: token, GUID lookup, stop, settle, start, readiness, health, then the record.
- The region batch, `restartRegionApps`.
- The fleet monitor, `monitorAllApps`.
- The run lock of the scheduled sweep.

`sap-restart.js` covers one part: the per-region status board that `checkApplicationStatus`,
`batchRestartSAP` and `restartSingleSAP` rewrite.

Every effect of the source becomes an input or an output, so the model is pure:

- **Inputs:** replies from the identity provider, the control plane and the application URL. A
  reply sequence is a total function from the attempt index to the reply.
- **Time:** instants are integers, given as parameters.
- **Outputs:** requests and pauses are returned as an ordered trace of `Call`s.
- **Namespaces:** the KV namespaces are values (`Env`). An unbound namespace is `None`.

Modules, one per file:

| Module | Models |
|---|---|
| `Common` | Option/Result, JavaScript truthiness, string helpers, counting |
| `Regions` | The registry, the configured apps, classification |
| `Store` | Keys, breaker markers, lock entry, monitor log, restart records |
| `Circuit` | The breaker |
| `Health` | The probe |
| `Platform` | Platform replies and the request trace |
| `Ready` | The readiness poller |
| `Restart` | The single-application restart |
| `Batch` | The region batch |
| `Monitor` | The fleet monitor |
| `Lock` | The run lock and the scheduled sweep |
| `Status` | The two-account status board |

## Model

| member | source | states |
|---|---|---|
| Regions.Lookup | sap-keep6-worker.js:12-25 | a code resolves to a registry entry exactly when it is one of the registry's codes, and the entry carries that code |
| Regions.DetectRegion | sap-keep6-worker.js:58-63 | a URL is classified exactly when some registry pattern accepts it, and the result is the code of the first accepting entry in registry order |
| Regions.AppRegion | sap-keep6-worker.js:66-68 | a non-empty explicit region wins; otherwise the result is a registry code whose pattern accepts the URL, or "UNKNOWN" when none does |
| Regions.RegistryPatternsDisjoint | sap-keep6-worker.js:12-25 | no URL is accepted by both the US and the AP pattern, so registry order never decides a classification |
| Regions.AppRegionBySuffix | sap-keep6-worker.js:16-22 | without an explicit region: "US" iff the URL ends in `.us10.hana.ondemand.com` or `.us10-001.hana.ondemand.com`, "AP" iff it ends in `.ap21.hana.ondemand.com`, "UNKNOWN" iff neither |
| Regions.ConfiguredAppsClassified | sap-keep6-worker.js:6-9 | the configured `s1` is "AP" and `us0` is "US" |
| Regions.ConfiguredApUrlDetected | sap-keep6-worker.js:7 | the configured Singapore URL classifies as "AP" even without its explicit region |
| Regions.ConfiguredUsUrlDetected | sap-keep6-worker.js:8 | the configured US URL classifies as "US" even without its explicit region |
| Store.AppendLog | sap-keep6-worker.js:104-122 | a monitor log entry is appended after all earlier ones and nothing else changes; with no namespace bound, nothing is stored |
| Store.WriteRestartRecord | sap-keep6-worker.js:72-86 | the restarted key's record holds the write instant and a lower-cased operator of the same length, equal to the given operator when that is already lower case. Every other key is unchanged; with no namespace bound, nothing is stored |
| Circuit.RecordFailure | sap-keep6-worker.js:137-152 | the counter goes up by exactly one. From the third failure, the marker is rewritten to now + 15 min; below it, no marker changes. The key is then broken iff it was already broken or the new count reached 3. Other keys, the lock and the log are unchanged |
| Circuit.RecordSuccess | sap-keep6-worker.js:153-157 | the marker and the counter are both deleted, so the key is not broken at any instant; other keys, the lock and the log are unchanged |
| Circuit.IsBroken | sap-keep6-worker.js:126-134 | nothing is suspended without a bound namespace or without a marker for the key; with a marker, the key is suspended exactly while `now` is strictly before its `brokenUntil` |
| Circuit.BrokenLapsesWithoutWrite | sap-keep6-worker.js:126-134 | a suspension is monotone in time and lapses exactly at `brokenUntil` without any write |
| Circuit.ThirdFailureTrips | sap-keep6-worker.js:142-150 | from a clean key, the first two failures leave it closed and the third opens it until its own instant + 15 min |
| Circuit.CounterSurvivesLapse | sap-keep6-worker.js:142-150 | once two failures are stored, the next failure reopens the breaker even after the window lapsed, because the counter is never cleared on lapse |
| Circuit.FailureWhileBrokenExtends | sap-keep6-worker.js:148-150 | a failure while broken moves `brokenUntil` forward to a fresh window |
| Circuit.RecordFailureAsWritten | sap-keep6-worker.js:142-151 | the breaker writes happen exactly as in `RecordFailure`, and the call throws exactly when a namespace is bound and the new count reached 3, after the marker for now + 15 min was written |
| Circuit.ThirdFailureThrowsAsWritten | sap-keep6-worker.js:142-151 | from a clean key, the first two failures return normally and the third throws, with the breaker already open |
| Circuit.SuccessRestartsCount | sap-keep6-worker.js:153-157 | after a success, two further failures do not open the breaker, however many were stored before |
| Health.Probe | sap-keep6-worker.js:270-306 | at most retryCount + 1 attempts. The probe is healthy iff some attempt within the budget passes; it stops at the first passing attempt; it fails only after the last attempt; it pauses `retryInterval` only between attempts. A negative budget makes no attempt and reads as unhealthy |
| Health.FirstPassDecides | sap-keep6-worker.js:277-295 | when attempt k is the first to pass, the probe is healthy after exactly k + 1 attempts and k pauses |
| Health.LaterRepliesIrrelevant | sap-keep6-worker.js:294-295 | replies after the first passing attempt cannot change the probe's report |
| Health.DeadEndpointDefault | sap-keep6-worker.js:28-35 | with the default configuration, an endpoint that always times out is unhealthy after 3 attempts and two 3000 ms pauses |
| Ready.ScheduleValues | sap-keep6-worker.js:246-264 | the backoff only takes the values 2000, 3000, 4500, 6750, 10125 and 15000, and stays at 15000 from the fifth step on |
| Ready.IntegerBackoffIsExact | sap-keep6-worker.js:254 | the integer step equals the real-valued `min(delay * 1.5, 15000)` along the whole schedule |
| Ready.NextDelay | sap-keep6-worker.js:254 | the step keeps a delay in [2000, 15000]; for a non-negative delay it is 15000 exactly when 1.5 times the delay reaches 15000, and otherwise it is 1.5 times the delay rounded down |
| Ready.StateVerdict | sap-keep6-worker.js:251-253 | a state reply is ready exactly when the app state is STARTED, a failed request is a failure with its message, and any other state is "not yet" carrying that state |
| Ready.StatsVerdict | sap-keep6-worker.js:262-264 | a stats reply is ready exactly when some instance is RUNNING, and a failed request is a failure with its message |
| Ready.PollPhase | sap-keep6-worker.js:249-255 | a phase makes at least one and at most its budget of polls, each after a pause. The first pause is the delay it was given; each later one is the backoff of the previous, all in [2000, 15000]. Every poll but the last was not yet ready. It ends as reached iff the last reply is ready, carrying the last delay. It ends as aborted iff the last reply is a failure, carrying that failure's message |
| Ready.PhaseFollowsSchedule | sap-keep6-worker.js:246-254 | the pauses of a phase started at 2000 ms are exactly the backoff schedule |
| Ready.PrimaryProcess | sap-keep6-worker.js:258-259 | the polled process is the earliest labelled "web" (every process before it has another label) if any, else the first process; there is none only for an empty listing |
| Ready.FirstWeb | sap-keep6-worker.js:259 | the scan returns the earliest process labelled "web": every process before it has another label. With no such process it returns the fallback |
| Ready.WaitReady | sap-keep6-worker.js:244-267 | at most 8 state polls, then, only after a STARTED reply, at most 10 stats polls. The first stats pause repeats the last state pause, since the break skips the backoff step. "not started" iff the state budget ran out; "not running" iff the stats budget ran out; success iff a stats poll saw a RUNNING instance of the primary process. An empty process listing fails as "no process" iff the state phase reached STARTED, after one more pause of the last state delay and no stats poll. The pauses in the trace are exactly the phases' pauses, and requests are issued in stage order. Its requests are exactly those of the reference `WaitCalls`: a pause and a state poll of the app per state poll; after STARTED, the app's process listing; then nothing (listing failed), one pause of the delay in force (empty listing), or a pause and a stats poll of the primary process per stats poll |
| Ready.WaitReportsApiError | sap-keep6-worker.js:223-262 | a failed request is rethrown unchanged. A failed state poll, a failed process listing after STARTED and a failed stats poll each end the wait with that request's own error |
| Ready.WaitPollsTheApp | sap-keep6-worker.js:249-252 | the k-th state poll asks for the started app and comes right after the k-th pause; the state polls take two entries each, and the process listing of the same app follows iff the app reported STARTED |
| Ready.InterleaveAt | sap-keep6-worker.js:249-251 | in a polling loop's trace, entry 2k is the k-th pause and entry 2k + 1 the poll issued after it |
| Ready.InterleaveShape | sap-keep6-worker.js:249-251 | a polling loop's trace is, for each pause in order, that pause followed by the poll |
| Ready.WaitPausesBounded | sap-keep6-worker.js:246-264 | every pause of a wait lies in [2000, 15000], and the first is 2000. Each later pause is the backoff of the previous one, except the first stats pause |
| Ready.WaitTailChain | sap-keep6-worker.js:246-264 | the pauses after the state phase are the rest of the wait's pauses and form a backoff chain of their own |
| Ready.StatsTailChain | sap-keep6-worker.js:258-265 | with a stats phase, the pauses after the state phase stay in [2000, 15000] and each is the backoff of the one before |
| Ready.NoProcessTailChain | sap-keep6-worker.js:258-262 | with an empty process listing, the one pause after the state phase is the last state delay, within [2000, 15000] |
| Ready.NoProcessStage | sap-keep6-worker.js:258-262 | an empty process listing fails as "no process" after the state phase's requests and one more pause of the delay in force, with no stats poll |
| Ready.NeverStartedFails | sap-keep6-worker.js:248-255 | an app that never reports STARTED fails as "not started" with its last state, after exactly 8 polls and no stats poll |
| Ready.NeverRunningFails | sap-keep6-worker.js:258-266 | an app that starts but whose process never runs fails as "not running" after all 10 stats polls |
| Ready.StartedAt | sap-keep6-worker.js:251-252 | the state phase ends at the first STARTED reply |
| Restart.RestartSingleApp | sap-keep6-worker.js:309-342 | an invalid region fails before any request. Otherwise the first request is the token. Requests go strictly in stage order: token, GUID lookup, stop, 3 s settle, start, readiness, health. The only start is the fifth call, right after the settle pause and a stop of the same GUID. Success iff every step succeeds, and its value is the region code. A record is written only on success; on failure the records are unchanged |
| Restart.RestartInRegion | sap-keep6-worker.js:316-341 | the same order and start-position guarantees inside a valid region; success iff every remote step succeeds; the success trace ends with a health attempt on the app URL |
| Restart.EarlyStop | sap-keep6-worker.js:316-324 | the first failing step is reported with the number of calls issued up to and including it. A token refusal gives "auth failed" after 1 call. A lookup failure or no match gives its failure after 2 calls. A stop refusal gives its failure after 3 calls. A start refusal gives its failure after 5 calls. It is none iff all four steps succeed |
| Restart.RestartSingleFailures | sap-keep6-worker.js:316-336 | in a known region the reported failure is the first refused step, and the trace is exactly the requests up to that one. Else it is the readiness failure, after the start requests and the whole wait. Else, when readiness succeeded and the probe did not, it is "unhealthy after restart" |
| Restart.EarlyFailureEndsTrace | sap-keep6-worker.js:316-324 | an early failure writes no record. Its failing request is the last call: the token request, the GUID lookup, the stop of the target GUID, or the start at position 5. No start request is issued unless the start itself failed |
| Restart.AfterStart | sap-keep6-worker.js:325-336 | after the start: a readiness failure is rethrown as-is and ends the trace; a ready app that fails the probe is "unhealthy after restart"; success iff readiness and health both succeed; the record is written only then |
| Restart.AfterStartTrace | sap-keep6-worker.js:316-336 | the trace is the five start requests, then the wait's calls, then the probe's calls only when the wait succeeded. The start stays the fifth call and the only start, and the stages stay in order |
| Restart.InvalidRegionIssuesNothing | sap-keep6-worker.js:311-313 | an app with no explicit region and no matching URL fails with region "UNKNOWN" and issues no request |
| Restart.SuccessWritesOneRecord | sap-keep6-worker.js:328-330 | a successful restart writes exactly its own key's record, with the lower-cased operator and the write instant, and no other |
| Restart.StartsAtMostOnce | sap-keep6-worker.js:321-323 | one restart issues at most one start request |
| Batch.RegionApps | sap-keep6-worker.js:350 | an app is among the region's apps exactly when it is configured and classified into that region, and the number of region apps is the number of configured apps so classified |
| Batch.RegionAppsAppend | sap-keep6-worker.js:350 | the filter distributes over concatenation, so the region's apps keep their configured order |
| Batch.RegionAppsSingle | sap-keep6-worker.js:350 | a single app is kept iff its region is the code |
| Batch.BatchStep | sap-keep6-worker.js:356-372 | an app is skipped iff its breaker is open, and a skipped app gets no request and no change. A processed app's trace is exactly the restart's requests followed by the 2000 ms pause. No other app's breaker changes |
| Batch.StepOutcome | sap-keep6-worker.js:363-371 | an app succeeds iff it is not broken and every restart step succeeds. Success resets the breaker and writes the record. Failure counts exactly one failure, writes nothing and carries the restart's error |
| Batch.BatchLoop | sap-keep6-worker.js:358-373 | one entry per app, in order, with the app's name. Each entry is the step applied to the bindings left by the previous step |
| Batch.RestartRegionApps | sap-keep6-worker.js:345-351 | an unknown region is refused iff the code is not in the registry. A region with no apps is refused iff none is classified into it. Otherwise there is one entry per region app, in the same order, and the result is the batch loop over the region's apps |
| Batch.RegionBatchLeavesOtherRegions | sap-keep6-worker.js:358-373 | a region batch leaves the breaker state of every key of another region unchanged |
| Batch.BatchCountsAddUp | sap-keep6-worker.js:376-378 | the success, failure and skip counts add up to the region's app count |
| Batch.SkippedTouchesNothing | sap-keep6-worker.js:360-363 | a skipped entry has no calls and leaves the bindings unchanged |
| Batch.BatchLeavesOtherKeys | sap-keep6-worker.js:358-373 | the breaker state of a key belonging to no app of the batch is the same after it |
| Batch.ConfiguredRegionsHaveOneAppEach | sap-keep6-worker.js:6-9 | with the configured list, "US" selects only `us0` and "AP" only `s1` |
| Monitor.MonitorStep | sap-keep6-worker.js:389-445 | an app is skipped iff broken: no request, only a "skipped" log entry. It is healthy iff it is not broken and the probe passes: only the probe's requests, only a "healthy" entry. A restart succeeds at attempt 1 or 2. The lock is untouched, and no other app's breaker changes |
| Monitor.Remediate | sap-keep6-worker.js:413-444 | a down app ends restarted or in error and ends with the 1000 ms pause. The lock is untouched, and no other app's breaker changes |
| Monitor.StepOutcome | sap-keep6-worker.js:413-441 | a down app is restarted with operator "system". Attempt 1 wins iff it succeeds; attempt 2 wins iff only it succeeds. A win logs "restarted", resets the breaker and writes that attempt's record. Otherwise the retry's error is reported, "error" is logged, exactly one failure is counted and no record is written |
| Monitor.RemediateOutcome | sap-keep6-worker.js:413-444 | given the two restart outcomes: attempt 1 wins iff it succeeded, keeping its records, and its trace is that attempt's requests and the 1000 ms pause; attempt 2 wins iff only it succeeded. A win logs "restarted" and resets the breaker. Two failures log "error", count one failure, keep the records and report the retry's error. Unless attempt 1 won, the trace is the first attempt, the 3000 ms pause, the retry and the 1000 ms pause |
| Monitor.StepTrace | sap-keep6-worker.js:403-444 | an app found down gets the probe's requests, then the first attempt's; if that failed, the 3000 ms pause and the retry's requests; and last the 1000 ms pause |
| Monitor.RetryFollowsPause | sap-keep6-worker.js:423-428 | when the first attempt fails, its requests are followed by a 3000 ms pause, before the retry's requests |
| Monitor.StepStartsAtMostTwice | sap-keep6-worker.js:417-429 | one app gets at most two start requests per sweep |
| Monitor.MonitorLoop | sap-keep6-worker.js:389-445 | one entry per app, in order. Each entry is the step applied to the bindings left by the previous step |
| Monitor.MonitorAllApps | sap-keep6-worker.js:385-456 | the sweep has one entry per configured app, in configured order. Each entry is the step applied to the bindings left by the previous app |
| Monitor.SummaryCountsAddUp | sap-keep6-worker.js:448-453 | the healthy, restarted, error and skipped counts add up to the number of apps |
| Monitor.SweepKeepsLock | sap-keep6-worker.js:385-456 | a sweep never touches the run lock and never binds or unbinds a namespace |
| Monitor.SweepLeavesOtherKeys | sap-keep6-worker.js:389-445 | the breaker state of a key belonging to no app of the sweep is the same after it |
| Monitor.SkippedOnlyLogs | sap-keep6-worker.js:396-400 | a skipped app gets no request, no record and no breaker change, only a "skipped" log entry |
| Monitor.SweepStartsAtMostTwicePerApp | sap-keep6-worker.js:417-429 | every app of a sweep gets at most two start requests |
| Lock.TryAcquire | sap-keep6-worker.js:811-829 | acquired iff a namespace is bound and no live lock exists. The new lock is tagged with the run's start instant, lives 5 minutes, and nothing else changes. Otherwise nothing changes |
| Lock.Release | sap-keep6-worker.js:836-841 | only the lock changes. It is deleted only by its own owner, and always when that owner still holds it |
| Lock.MutualExclusion | sap-keep6-worker.js:811-829 | of two runs started within 5 minutes, at most one holds the lock; from a free namespace, exactly the first does |
| Lock.NewerLockSurvivesStaleRelease | sap-keep6-worker.js:816-841 | a later run can take the lock only after the earlier one's lapsed, and the earlier run's release then leaves the later lock in place |
| Lock.ScheduledSweep | sap-keep6-worker.js:804-842 | the sweep runs iff the lock was acquired; without it nothing changes. With it, the entries and records are those of the fleet monitor run on the locked namespace, and the final log space is that run's, with the run's lock then released. The lock is released at the end if still held, and it is never left live |
| Status.Put | sap-restart.js:192-206 | a record update replaces that region's record and leaves the other region's |
| Status.Observe | sap-restart.js:124-186 | the check sees the app iff credentials and GUID are set, the token reply is OK with a token and the app reply is OK. Otherwise the fault is that of the first failing step: missing credentials; the token request's exception; the token reply's HTTP status; no access token; the app request's exception; the app reply's HTTP status |
| Status.CheckRecord | sap-restart.js:187-207 | on success: running iff the state is STARTED, else error; the error is cleared; the last start is `last_started_at` or now. On failure: error with the fault. The URL, and on failure the last start, are kept |
| Status.CheckApplicationStatus | sap-restart.js:101-210 | each region's record is the check of that region's own replies; with no board, nothing is recorded |
| Status.CheckRunningIff | sap-restart.js:128-198 | a region shows running exactly when its credentials are set, both replies are OK with a token, and the app is STARTED; its error is then cleared |
| Status.CheckFailureKeepsFields | sap-restart.js:199-207 | a failed check marks the region as error with the fault and keeps its last start and URL |
| Status.RestartAccount | sap-restart.js:674-758 | done iff the token is granted and the restart reply is OK, which writes running, now, no error. A token reply that is not OK is refused with its text, and one without an access token is refused as such; both mark error and keep the last start. A restart refusal marks error, keeps the last start or falls back to now, and records the reply text. It ends thrown iff the token request threw, or the token was granted and the restart request threw, with that message; the record then stays "restarting" |
| Status.TokenFailureSkipsRestart | sap-restart.js:697-723 | without a token the restart reply is never consulted and the restart never succeeds |
| Status.RestartSingleSap | sap-restart.js:768-886 | the chosen account's record becomes the one its restart produces and the other account's record is unchanged. Without a board nothing is recorded, and the result is still that restart's result |
| Status.ResultIgnoresRecord | sap-restart.js:736-762 | the result of a restart does not depend on the record it starts from |
| Status.BatchRestartSap | sap-restart.js:643-765 | the board stays bound exactly when it was, and the result holds one line per account, US first then SG |
| Status.BatchIsTwoSingles | sap-restart.js:667-764 | the batch equals the two single restarts in account order, board and results alike |
| Status.SinglesCommute | sap-restart.js:672-764 | the two accounts' restarts touch disjoint records, so their order does not matter |

## Left out

- Notifications to Telegram are effect-free in the model. This includes the MarkdownV2 escaping and
  the summary texts with their counts and names. It also drops the one effect a notice has on the
  namespace: a failed delivery appends a ("telegram", "error") entry to the monitor log
  (sap-keep6-worker.js:187-190), so the exact log contents stated by `Monitor.StepOutcome` and
  `Monitor.RemediateOutcome` hold only when every notice is delivered or Telegram is not configured.
- The breaker-trip notice at sap-keep6-worker.js:151 is called without `env`, so reading
  `env.TG_BOT_TOKEN` throws a TypeError after both breaker writes. That call runs inside the catch
  blocks at sap-keep6-worker.js:370 and :439, so the error escapes them: `restartRegionApps` and
  `monitorAllApps` reject, skipping the pause, the remaining apps and the summary, and `scheduled`
  logs it and still releases the lock. The rest of the model follows the evidently intended
  behaviour, where the notice returns; `Circuit.RecordFailureAsWritten` models the throw (see
  Findings).
- HTTP transport is not modelled: `getUAAToken`, `cfRequest`, `fetch`, timeouts and AbortController.
  Each request is replaced by its reply, taken as an input.
- The 30 s probe timeout is not modelled. It appears only as a `TransportFailure` attempt.
- `sleep` issues no delay in the model. A pause is recorded as a `Pause` call in the trace.
- `formatShanghaiTime` and `Date` are not modelled. Instants are integers, and the status board's
  ISO strings are opaque strings.
- The HTML pages and the request routing of both `fetch` handlers are not modelled. This includes
  `/api/status`, which fans out with `Promise.all`.
- KV key strings, the 30-day log TTL, and KV write failures are not modelled. Breaker state is kept
  as two typed maps keyed by (region, app), and saveMonitorLog's caught write errors are dropped.
- The lock's `putIfAbsent`/metadata options and its JSON `get` are not modelled. Their real semantics
  live in a library that is not part of this model. The lock is an atomic create-if-absent entry
  owned by the run's start instant. A lapsed entry reads as absent.
- The module-level credentials and their overwrite from `env` in `scheduled` are not modelled.
- The 15 s "unknown" race of `sap-restart.js:63-76` is not modelled.
- `Promise.all` in `batchRestartSAP` is modelled as sequential execution (US, then SG), because the
  two accounts touch disjoint records (`Status.SinglesCommute`).
- `restartSingleSAP` with an index other than 0 or 1 is not modelled. The routes only pass 0 and 1;
  the account is a `RegionKey`.
- Failure messages are structured values, not the source's Chinese strings.
- Store.WriteRestartRecord: lower-casing (`Common.Lower`) folds only ASCII letters, while
  `toLowerCase` also folds other letters and can change a string's length. The only operators
  passed are "user" (sap-keep6-worker.js:764) and "system" (sap-keep6-worker.js:419), on which both
  agree.
- LogEntry keeps only the app and the status. The message and the timestamp are dropped, including
  the attempt number in the "restarted" message; the attempt is kept in the monitor entry's
  `Recovered(attempt)` status instead.
- JSON decoding failures are modelled as throws. The source always folds those into the same error
  path.
- A `REGIONS[code]` lookup in the source would also see inherited object members. The model's
  registry only holds the two codes.

## Behaviour worth noting

- The breaker is re-armed on every failure from the third on (sap-keep6-worker.js:148-150), so
  `brokenUntil` moves forward with each further failure (`Circuit.FailureWhileBrokenExtends`).
- The failure counter is cleared only by a success (sap-keep6-worker.js:153-157). A lapsed window
  does not clear it (sap-keep6-worker.js:126-134), so the next failure reopens the breaker at once
  (`Circuit.CounterSurvivesLapse`).
- The region batch pauses 2000 ms only after an app that was not skipped: the `continue` at
  sap-keep6-worker.js:362 jumps over the pause at :372.
- The fleet monitor pauses 1000 ms only after an app that was restarted or failed: the `continue`s
  at sap-keep6-worker.js:399 and :407 jump over the pause at :444.
- When the process listing is empty, the wait still sleeps the current delay
  (sap-keep6-worker.js:261) before the missing process fails it at :262 (`Ready.NoProcessStage`).

## Findings

| source | as written | input that shows it | evidently intended | confidence | as-written member | corrected member |
|---|---|---|---|---|---|---|
| sap-keep6-worker.js:151 | the breaker-trip notice is called without `env`, so it throws after both breaker writes and aborts the batch or sweep from inside its catch block | the third failure of a key with no stored failures (a bound namespace) | `sendTelegramMessage(msg, env)`, which returns | high (line 162 reads `env.TG_BOT_TOKEN` on an undefined `env`); not executed | Circuit.ThirdFailureThrowsAsWritten | Circuit.ThirdFailureTrips |
