/** The durable key/value namespaces of the worker and the records kept in them. */
module Store {
  import opened Common

  /** The (region, application) pair every circuit fact and restart record is keyed by. */
  datatype AppKey = AppKey(region: string, app: string)

  /** The breaker marker: remediation is suspended until `brokenUntil` (milliseconds). */
  datatype Fuse = Fuse(brokenUntil: int, failCount: int)

  /** The run lock: the owner tag of the run that created it (the run's start instant, which the
      source writes as a decimal string) and the instant its TTL lapses. */
  datatype LockEntry = LockEntry(owner: int, expiresAt: int)

  /** The status of one monitor log entry. */
  datatype LogStatus = Healthy | Offline | Restarted | Errored | Skipped

  /** One append-only monitor observation. */
  datatype LogEntry = LogEntry(app: string, status: LogStatus)

  /** The MONITOR_LOGS namespace: breaker markers, failure counters, the run lock and the log. */
  datatype LogSpace = LogSpace(
    fuses: map<AppKey, Fuse>,
    counts: map<AppKey, int>,
    lock: Option<LockEntry>,
    log: seq<LogEntry>)

  /** The last verified restart of an application. */
  datatype RestartRecord = RestartRecord(operator: string, timestamp: int)

  /** The RESTART_RECORDS namespace. */
  type Records = map<AppKey, RestartRecord>

  /** The worker's bindings; a namespace that is not bound is `None`. */
  datatype Env = Env(logs: Option<LogSpace>, records: Option<Records>)

  /** Appends a monitor log entry; without a bound namespace nothing is stored. */
  function AppendLog(ns: Option<LogSpace>, e: LogEntry): (r: Option<LogSpace>)
    ensures r.None? <==> ns.None?
    ensures ns.Some? ==> r.value.log == ns.value.log + [e]
    ensures ns.Some? ==> r.value.fuses == ns.value.fuses && r.value.counts == ns.value.counts
    ensures ns.Some? ==> r.value.lock == ns.value.lock
  {
    match ns
    case None => None
    case Some(s) => Some(s.(log := s.log + [e]))
  }

  /** Stores the record of a verified restart: the operator in lower case and the time of writing.
      Only the application's own key changes; without a bound namespace nothing is stored. */
  function WriteRestartRecord(recs: Option<Records>, key: AppKey, operator: string, now: int): (r: Option<Records>)
    ensures r.None? <==> recs.None?
    ensures recs.Some? ==> key in r.value && r.value[key].timestamp == now
    ensures recs.Some? ==> IsLower(r.value[key].operator) && |r.value[key].operator| == |operator|
    ensures recs.Some? && IsLower(operator) ==> r.value[key].operator == operator
    ensures recs.Some? ==> r.value - {key} == recs.value - {key}
  {
    LowerIsIdempotent(operator);
    match recs
    case None => None
    case Some(m) => Some(m[key := RestartRecord(Lower(operator), now)])
  }
}
