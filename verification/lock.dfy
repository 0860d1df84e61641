/** The run lock of the scheduled sweep: a create-if-absent entry with a five-minute lifetime, owned
    by the run that created it (tagged with the run's start instant) and deleted only by that run. */
module Lock {
  import opened Common
  import opened Regions
  import opened Store
  import opened Monitor

  /** The lifetime of the lock: the worst-case duration of one sweep. */
  const LockTtl := 5 * 60 * 1000

  /** A lock entry exists and has not lapsed at `now`. */
  predicate Held(ns: LogSpace, now: int)
  {
    ns.lock.Some? && now < ns.lock.value.expiresAt
  }

  /** Whether the lock was obtained, and the namespace after the attempt. */
  datatype Acquisition = Acquisition(acquired: bool, logs: Option<LogSpace>)

  /** Creates the lock for the run started at `now` unless a live one exists; without a bound
      namespace nothing is acquired. */
  function TryAcquire(ns: Option<LogSpace>, now: int): (r: Acquisition)
    ensures r.acquired <==> ns.Some? && !Held(ns.value, now)
    ensures !r.acquired ==> r.logs == ns
    ensures r.acquired ==>
              && r.logs.Some? && Held(r.logs.value, now)
              && r.logs.value.lock.value.owner == now
              && r.logs.value.lock.value.expiresAt == now + LockTtl
              && r.logs.value.(lock := ns.value.lock) == ns.value
  {
    match ns
    case None => Acquisition(false, None)
    case Some(s) =>
      if Held(s, now) then Acquisition(false, ns)
      else Acquisition(true, Some(s.(lock := Some(LockEntry(now, now + LockTtl)))))
  }

  /** At `at`, the run tagged `owner` deletes the lock if it still holds it; a lapsed entry reads as
      absent and is left alone, as is an entry owned by another run. */
  function Release(ns: Option<LogSpace>, owner: int, at: int): (r: Option<LogSpace>)
    ensures r.None? <==> ns.None?
    ensures ns.Some? ==> r.value.(lock := ns.value.lock) == ns.value
    ensures ns.Some? && r.value.lock != ns.value.lock ==>
              && ns.value.lock.Some? && ns.value.lock.value.owner == owner
              && r.value.lock.None?
    ensures ns.Some? && Held(ns.value, at) && ns.value.lock.value.owner == owner ==> r.value.lock.None?
  {
    match ns
    case None => None
    case Some(s) =>
      if Held(s, at) && s.lock.value.owner == owner then Some(s.(lock := None)) else ns
  }

  /** Two runs started within one lifetime of each other cannot both hold the lock: of two attempts
      on a namespace with no live lock, exactly the first succeeds. */
  lemma MutualExclusion(ns: Option<LogSpace>, t1: int, t2: int)
    requires t1 <= t2 < t1 + LockTtl
    ensures TryAcquire(ns, t1).acquired ==> !TryAcquire(TryAcquire(ns, t1).logs, t2).acquired
    ensures ns.Some? && !Held(ns.value, t1) ==>
              TryAcquire(ns, t1).acquired && !TryAcquire(TryAcquire(ns, t1).logs, t2).acquired
  {
  }

  /** A run whose lock lapsed during its sweep and was taken over by a later run cannot delete the
      later run's lock: the later run started at or after the lapse, so its tag differs. `during` is
      the namespace as the later run finds it; the sweep in between leaves the lock as it was. */
  lemma NewerLockSurvivesStaleRelease(ns: Option<LogSpace>, during: Option<LogSpace>, tA: int, tB: int, at: int)
    requires TryAcquire(ns, tA).acquired
    requires during.Some? && during.value.lock == TryAcquire(ns, tA).logs.value.lock
    requires TryAcquire(during, tB).acquired
    ensures tB >= tA + LockTtl
    ensures var held := TryAcquire(during, tB).logs;
            Release(held, tA, at) == held
  {
    assert during.value.lock.value.expiresAt == tA + LockTtl;
    assert !Held(during.value, tB);
  }

  /** What one scheduled invocation did: whether the sweep ran, its result list, and the bindings after it. */
  datatype SweepReport = SweepReport(ran: bool, entries: seq<MonitorEntry>, env: Env)

  /** The scheduled handler: take the lock for the run started at `now`, sweep the configured
      applications, then release the lock at `doneAt`; without the lock, do nothing. */
  function ScheduledSweep(env: Env, now: int, runs: nat -> MonitorRun, doneAt: int): (r: SweepReport)
    ensures r.ran <==> env.logs.Some? && !Held(env.logs.value, now)
    ensures !r.ran ==> r.entries == [] && r.env == env
    ensures r.ran ==>
              && |r.entries| == |MonitoredApps|
              && (forall i :: 0 <= i < |MonitoredApps| ==> r.entries[i].app == MonitoredApps[i].name)
    ensures r.ran ==> r.env.logs.Some? && (r.env.records.None? <==> env.records.None?)
    ensures r.ran && doneAt < now + LockTtl ==> r.env.logs.value.lock.None?
    ensures r.ran ==> !Held(r.env.logs.value, doneAt)
    ensures r.ran ==>
              var rep := MonitorAllApps(runs, Env(TryAcquire(env.logs, now).logs, env.records));
              && r.entries == rep.entries && r.env.records == rep.env.records
              && r.env.logs == Release(rep.env.logs, now, doneAt)
  {
    var acq := TryAcquire(env.logs, now);
    if !acq.acquired then SweepReport(false, [], env)
    else
      var locked := Env(acq.logs, env.records);
      var rep := MonitorAllApps(runs, locked);
      SweepKeepsLock(MonitoredApps, runs, 0, locked);
      SweepReport(true, rep.entries, Env(Release(rep.env.logs, now, doneAt), rep.env.records))
  }
}
