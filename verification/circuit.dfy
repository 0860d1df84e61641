/** The per-application circuit breaker kept in the MONITOR_LOGS namespace. */
module Circuit {
  import opened Common
  import opened Store

  /** Consecutive failures that trip the breaker. */
  const FailThreshold := 3

  /** How long a tripped breaker suspends remediation: 15 minutes, in milliseconds. */
  const ResetWindow := 15 * 60 * 1000

  /** The stored failure counter; a missing counter reads as zero. */
  function FailCount(s: LogSpace, k: AppKey): int
  {
    if k in s.counts then s.counts[k] else 0
  }

  /** Remediation of `k` is suspended at `now`: a marker exists and its window has not lapsed.
      Without a bound namespace nothing is ever broken. */
  predicate IsBroken(ns: Option<LogSpace>, k: AppKey, now: int): (b: bool)
    ensures ns.None? ==> !b
    ensures b ==> k in ns.value.fuses
    ensures ns.Some? && k in ns.value.fuses ==> (b <==> now < ns.value.fuses[k].brokenUntil)
  {
    ns.Some? && k in ns.value.fuses && now < ns.value.fuses[k].brokenUntil
  }

  /** Neither the breaker marker nor the failure counter of `k` differs between the two namespaces. */
  predicate SameCircuit(a: Option<LogSpace>, b: Option<LogSpace>, k: AppKey)
  {
    && (a.Some? <==> b.Some?)
    && (a.Some? && b.Some? ==>
          && (k in a.value.fuses <==> k in b.value.fuses)
          && (k in a.value.fuses ==> a.value.fuses[k] == b.value.fuses[k])
          && FailCount(a.value, k) == FailCount(b.value, k))
  }

  /** Counts one more failure of `k`; from the threshold on, every failure (re)writes the marker
      with a fresh window starting at `now`. Nothing but `k`'s counter and marker changes. */
  function RecordFailure(ns: Option<LogSpace>, k: AppKey, now: int): (r: Option<LogSpace>)
    ensures r.None? <==> ns.None?
    ensures ns.Some? ==> FailCount(r.value, k) == FailCount(ns.value, k) + 1
    ensures ns.Some? ==> (IsBroken(r, k, now) <==> IsBroken(ns, k, now) || FailCount(ns.value, k) + 1 >= FailThreshold)
    ensures ns.Some? && FailCount(ns.value, k) + 1 >= FailThreshold ==>
              r.value.fuses[k] == Fuse(now + ResetWindow, FailCount(ns.value, k) + 1)
    ensures ns.Some? && FailCount(ns.value, k) + 1 < FailThreshold ==> r.value.fuses == ns.value.fuses
    ensures forall j :: j != k ==> SameCircuit(ns, r, j)
    ensures ns.Some? ==> r.value.lock == ns.value.lock && r.value.log == ns.value.log
  {
    match ns
    case None => None
    case Some(s) =>
      var n := FailCount(s, k) + 1;
      var counted := s.(counts := s.counts[k := n]);
      if n >= FailThreshold then Some(counted.(fuses := s.fuses[k := Fuse(now + ResetWindow, n)]))
      else Some(counted)
  }

  /** A verified success deletes both the marker and the counter of `k`, and nothing else. */
  function RecordSuccess(ns: Option<LogSpace>, k: AppKey): (r: Option<LogSpace>)
    ensures r.None? <==> ns.None?
    ensures forall t :: !IsBroken(r, k, t)
    ensures ns.Some? ==> FailCount(r.value, k) == 0 && k !in r.value.fuses && k !in r.value.counts
    ensures forall j :: j != k ==> SameCircuit(ns, r, j)
    ensures ns.Some? ==> r.value.lock == ns.value.lock && r.value.log == ns.value.log
  {
    match ns
    case None => None
    case Some(s) => Some(s.(fuses := s.fuses - {k}, counts := s.counts - {k}))
  }

  /** Agreement at one key is transitive. */
  lemma SameCircuitChains(a: Option<LogSpace>, b: Option<LogSpace>, c: Option<LogSpace>, k: AppKey)
    requires SameCircuit(a, b, k) && SameCircuit(b, c, k)
    ensures SameCircuit(a, c, k)
  {
  }

  /** A suspension lapses on its own: broken at a later instant means broken at every earlier one,
      and from `brokenUntil` on the key is eligible again without any write. */
  lemma BrokenLapsesWithoutWrite(ns: Option<LogSpace>, k: AppKey, earlier: int, later: int)
    requires earlier <= later
    ensures IsBroken(ns, k, later) ==> IsBroken(ns, k, earlier)
    ensures IsBroken(ns, k, earlier) ==> (IsBroken(ns, k, later) <==> later < ns.value.fuses[k].brokenUntil)
  {
  }

  /** From a closed circuit, the first two failures leave it closed and the third trips it for a
      full window from the third failure's instant. */
  lemma {:induction false} ThirdFailureTrips(s: LogSpace, k: AppKey, t1: int, t2: int, t3: int)
    requires k !in s.fuses && k !in s.counts
    ensures var n1 := RecordFailure(Some(s), k, t1);
            var n2 := RecordFailure(n1, k, t2);
            var n3 := RecordFailure(n2, k, t3);
            (forall t :: !IsBroken(n1, k, t) && !IsBroken(n2, k, t))
            && n3.value.fuses[k] == Fuse(t3 + ResetWindow, 3)
            && IsBroken(n3, k, t3)
  {
    var n1 := RecordFailure(Some(s), k, t1);
    assert FailCount(n1.value, k) == 1 && n1.value.fuses == s.fuses;
    var n2 := RecordFailure(n1, k, t2);
    assert FailCount(n2.value, k) == 2 && n2.value.fuses == s.fuses;
    var n3 := RecordFailure(n2, k, t3);
    assert FailCount(n3.value, k) == 3;
  }

  /** The counter is not cleared when a window lapses: once two or more failures are stored, the
      next failure trips the breaker again immediately. */
  lemma CounterSurvivesLapse(s: LogSpace, k: AppKey, now: int)
    requires FailCount(s, k) >= FailThreshold - 1
    ensures IsBroken(RecordFailure(Some(s), k, now), k, now)
    ensures RecordFailure(Some(s), k, now).value.fuses[k].brokenUntil == now + ResetWindow
  {
  }

  /** A failure while already broken moves `brokenUntil` to a fresh window from `now`, which
      extends the suspension whenever the old window would have lapsed earlier. */
  lemma FailureWhileBrokenExtends(s: LogSpace, k: AppKey, now: int)
    requires IsBroken(Some(s), k, now) && FailCount(s, k) >= FailThreshold - 1
    requires s.fuses[k].brokenUntil < now + ResetWindow
    ensures RecordFailure(Some(s), k, now).value.fuses[k].brokenUntil > s.fuses[k].brokenUntil
  {
  }

  /** However many failures were stored, one success followed by fewer than three failures
      leaves the circuit closed at every instant. */
  lemma {:induction false} SuccessRestartsCount(s: LogSpace, k: AppKey, t1: int, t2: int)
    ensures var c := RecordSuccess(Some(s), k);
            var f := RecordFailure(RecordFailure(c, k, t1), k, t2);
            FailCount(f.value, k) == 2 && forall t :: !IsBroken(f, k, t)
  {
    var c := RecordSuccess(Some(s), k);
    var f1 := RecordFailure(c, k, t1);
    assert FailCount(f1.value, k) == 1 && f1.value.fuses == c.value.fuses;
    var f := RecordFailure(f1, k, t2);
    assert f.value.fuses == c.value.fuses;
  }

  /** A failure count as `updateCircuitState` is written: the namespace after its writes, and
      whether the call threw afterwards. */
  datatype WrittenFailure = WrittenFailure(logs: Option<LogSpace>, threw: bool)

  /** `updateCircuitState` for a failure exactly as written: both writes happen, but the trip notice
      is sent without the bindings, so reading the notification settings from them throws whenever
      the marker was just written. `RecordFailure` is the intended behaviour, where the notice returns. */
  function RecordFailureAsWritten(ns: Option<LogSpace>, k: AppKey, now: int): (r: WrittenFailure)
    ensures r.logs == RecordFailure(ns, k, now)
    ensures r.threw <==> ns.Some? && FailCount(r.logs.value, k) >= FailThreshold
    ensures r.threw ==> r.logs.value.fuses[k] == Fuse(now + ResetWindow, FailCount(r.logs.value, k))
  {
    var logs := RecordFailure(ns, k, now);
    WrittenFailure(logs, ns.Some? && FailCount(ns.value, k) + 1 >= FailThreshold)
  }

  /** As written, the third failure of a clean key throws out of `updateCircuitState` after both
      writes, whereas the first two return normally. */
  lemma {:induction false} ThirdFailureThrowsAsWritten(s: LogSpace, k: AppKey, t1: int, t2: int, t3: int)
    requires k !in s.fuses && k !in s.counts
    ensures var n1 := RecordFailure(Some(s), k, t1);
            var n2 := RecordFailure(n1, k, t2);
            && !RecordFailureAsWritten(Some(s), k, t1).threw
            && !RecordFailureAsWritten(n1, k, t2).threw
            && RecordFailureAsWritten(n2, k, t3).threw
            && IsBroken(RecordFailureAsWritten(n2, k, t3).logs, k, t3)
  {
    var n1 := RecordFailure(Some(s), k, t1);
    assert FailCount(n1.value, k) == 1;
    var n2 := RecordFailure(n1, k, t2);
    assert FailCount(n2.value, k) == 2;
    ThirdFailureTrips(s, k, t1, t2, t3);
  }
}
