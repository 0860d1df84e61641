/** The health probe: a bounded retry loop over the replies of an application's public URL. */
module Health {
  import opened Common

  /** The probe's acceptance criteria and retry budget. */
  datatype HealthConfig = HealthConfig(
    retryCount: int,
    retryInterval: int,
    expectedStatus: seq<int>,
    expectedKeyword: Option<string>)

  /** The configuration every caller in the worker uses: 3 attempts, 3 s apart, 200/204/302 accepted. */
  const DefaultConfig := HealthConfig(2, 3000, [200, 204, 302], None)

  /** What one attempt observed: a transport failure (including a timeout) or a reply. */
  datatype Attempt = TransportFailure | Reply(status: int, body: string)

  /** One attempt succeeds: the status is accepted and, when a keyword is configured, the body holds it. */
  predicate Passes(cfg: HealthConfig, a: Attempt)
  {
    && a.Reply?
    && a.status in cfg.expectedStatus
    && (Truthy(cfg.expectedKeyword) ==> Contains(a.body, cfg.expectedKeyword.value))
  }

  /** The verdict, the number of attempts made and the pauses requested between them. */
  datatype ProbeReport = ProbeReport(healthy: bool, attempts: nat, sleeps: seq<int>)

  /** Attempts `i`, `i + 1`, ... up to the last one the budget allows; `replies(j)` is what attempt `j` observed. */
  function ProbeFrom(cfg: HealthConfig, replies: nat -> Attempt, i: nat): (r: ProbeReport)
    requires i <= cfg.retryCount
    ensures i < r.attempts <= cfg.retryCount + 1
    ensures r.healthy <==> exists j :: i <= j <= cfg.retryCount && Passes(cfg, replies(j))
    ensures r.healthy ==> Passes(cfg, replies(r.attempts - 1))
    ensures forall j :: i <= j < r.attempts - 1 ==> !Passes(cfg, replies(j))
    ensures !r.healthy ==> r.attempts == cfg.retryCount + 1
    ensures |r.sleeps| == r.attempts - 1 - i
    ensures forall j :: 0 <= j < |r.sleeps| ==> r.sleeps[j] == cfg.retryInterval
    decreases cfg.retryCount - i
  {
    if Passes(cfg, replies(i)) then ProbeReport(true, i + 1, [])
    else if i == cfg.retryCount then ProbeReport(false, i + 1, [])
    else
      var rest := ProbeFrom(cfg, replies, i + 1);
      rest.(sleeps := [cfg.retryInterval] + rest.sleeps)
  }

  /** The whole probe. With a negative retry count the source's loop never runs and its result is
      `undefined`, which every caller reads as unhealthy. */
  function Probe(cfg: HealthConfig, replies: nat -> Attempt): (r: ProbeReport)
    ensures cfg.retryCount >= 0 ==> 0 < r.attempts <= cfg.retryCount + 1
    ensures cfg.retryCount < 0 ==> r.attempts == 0 && !r.healthy
    ensures r.healthy <==> exists j :: 0 <= j <= cfg.retryCount && Passes(cfg, replies(j))
    ensures r.healthy ==> Passes(cfg, replies(r.attempts - 1))
    ensures forall j :: 0 <= j < r.attempts - 1 ==> !Passes(cfg, replies(j))
    ensures !r.healthy && cfg.retryCount >= 0 ==> r.attempts == cfg.retryCount + 1
    ensures |r.sleeps| == if r.attempts == 0 then 0 else r.attempts - 1
    ensures forall j :: 0 <= j < |r.sleeps| ==> r.sleeps[j] == cfg.retryInterval
  {
    if cfg.retryCount < 0 then ProbeReport(false, 0, []) else ProbeFrom(cfg, replies, 0)
  }

  /** The first passing attempt decides: the probe stops there, whatever later attempts would see. */
  lemma {:induction false} FirstPassDecides(cfg: HealthConfig, replies: nat -> Attempt, k: nat)
    requires k <= cfg.retryCount
    requires Passes(cfg, replies(k))
    requires forall j :: 0 <= j < k ==> !Passes(cfg, replies(j))
    ensures Probe(cfg, replies).healthy
    ensures Probe(cfg, replies).attempts == k + 1
    ensures |Probe(cfg, replies).sleeps| == k
  {
  }

  /** Replies after a passing attempt are never looked at: they cannot change the probe's report. */
  lemma LaterRepliesIrrelevant(cfg: HealthConfig, a: nat -> Attempt, b: nat -> Attempt, k: nat)
    requires k <= cfg.retryCount
    requires forall j :: 0 <= j <= k ==> a(j) == b(j)
    requires Passes(cfg, a(k))
    ensures Probe(cfg, a) == Probe(cfg, b)
  {
    var ra := Probe(cfg, a);
    var rb := Probe(cfg, b);
    assert Passes(cfg, b(k));
    assert ra.healthy && rb.healthy;
    var m := ra.attempts - 1;
    var n := rb.attempts - 1;
    assert m <= k && n <= k;
    assert a(m) == b(m) && a(n) == b(n);
    assert m == n;
    assert ra.sleeps == rb.sleeps;
  }

  /** An endpoint that always times out, under the default configuration: unhealthy after exactly
      three attempts, with one 3 s pause after each of the first two. */
  lemma DeadEndpointDefault(replies: nat -> Attempt)
    requires forall j :: replies(j) == TransportFailure
    ensures Probe(DefaultConfig, replies) == ProbeReport(false, 3, [3000, 3000])
  {
    var r := Probe(DefaultConfig, replies);
    assert !Passes(DefaultConfig, replies(0)) && !Passes(DefaultConfig, replies(1)) && !Passes(DefaultConfig, replies(2));
    assert r.sleeps == [3000, 3000];
  }
}
