/** The control-plane and identity-provider interface at its boundary: the replies the model takes
    as inputs and the requests (and pauses) it issues, in order. */
module Platform {

  /** The identity provider's answer to a password-grant token request. */
  datatype TokenReply = TokenGranted(token: string) | TokenRefused(message: string)

  /** The answer to "apps with this name": an API error, or the GUIDs of the matching apps. */
  datatype LookupReply = LookupFailed(message: string) | AppsFound(guids: seq<string>)

  /** The answer to a stop or start action. */
  datatype ActionReply = ActionDone | ActionFailed(message: string)

  /** The answer to one poll of an app's aggregate state. */
  datatype StateReply = StateFailed(message: string) | AppStateIs(state: string)

  /** A process of an app: its type label and GUID. */
  datatype Process = Process(kind: string, guid: string)

  /** The answer to the process listing of an app. */
  datatype ProcessesReply = ProcessesFailed(message: string) | ProcessesAre(processes: seq<Process>)

  /** The answer to one poll of a process's instance stats: the state of every instance. */
  datatype StatsReply = StatsFailed(message: string) | InstancesAre(states: seq<string>)

  /** One effect issued by the worker, in the order it is issued. */
  datatype Call =
    | TokenRequest(uaa: string)
    | GuidLookup(name: string)
    | StopApp(guid: string)
    | StartApp(guid: string)
    | Pause(ms: int)
    | StatePoll(guid: string)
    | ProcessListing(guid: string)
    | StatsPoll(processGuid: string)
    | HealthAttempt(url: string)

  /** The position of a request in the restart sequence; pauses have none (they occur between steps). */
  function Stage(c: Call): int
  {
    match c
    case TokenRequest(_) => 0
    case GuidLookup(_) => 1
    case StopApp(_) => 2
    case StartApp(_) => 3
    case StatePoll(_) => 4
    case ProcessListing(_) => 5
    case StatsPoll(_) => 6
    case HealthAttempt(_) => 7
    case Pause(_) => -1
  }

  /** The entry at `i` is a pause or a request with a stage in [lo, hi]. */
  predicate WithinAt(calls: seq<Call>, i: int, lo: int, hi: int)
    requires 0 <= i < |calls|
  {
    calls[i].Pause? || lo <= Stage(calls[i]) <= hi
  }

  /** Every request of `calls` has a stage in [lo, hi]. */
  predicate StagesWithin(calls: seq<Call>, lo: int, hi: int)
  {
    forall i :: 0 <= i < |calls| ==> WithinAt(calls, i, lo, hi)
  }

  /** The entries at `i` and `j` are not two requests whose stages go backwards. */
  predicate OrderedAt(calls: seq<Call>, i: int, j: int)
    requires 0 <= i < |calls| && 0 <= j < |calls|
  {
    calls[i].Pause? || calls[j].Pause? || Stage(calls[i]) <= Stage(calls[j])
  }

  /** The requests of `calls` occur in non-decreasing stage order. */
  predicate InStageOrder(calls: seq<Call>)
  {
    forall i, j :: 0 <= i < j < |calls| ==> OrderedAt(calls, i, j)
  }

  /** Ordered traces whose stages do not overlap concatenate to an ordered trace. */
  lemma OrderedAppend(a: seq<Call>, b: seq<Call>, lo: int, mid: int, hi: int)
    requires InStageOrder(a) && InStageOrder(b)
    requires lo <= mid <= hi
    requires StagesWithin(a, lo, mid) && StagesWithin(b, mid, hi)
    ensures InStageOrder(a + b)
    ensures StagesWithin(a + b, lo, hi)
  {
    var ab := a + b;
    forall i, j | 0 <= i < j < |ab|
      ensures OrderedAt(ab, i, j)
    {
      if j < |a| {
        assert ab[i] == a[i] && ab[j] == a[j];
        assert OrderedAt(a, i, j);
      } else if i >= |a| {
        assert ab[i] == b[i - |a|] && ab[j] == b[j - |a|];
        assert OrderedAt(b, i - |a|, j - |a|);
      } else {
        assert ab[i] == a[i] && ab[j] == b[j - |a|];
        assert WithinAt(a, i, lo, mid) && WithinAt(b, j - |a|, mid, hi);
      }
    }
    forall i | 0 <= i < |ab|
      ensures WithinAt(ab, i, lo, hi)
    {
      if i < |a| {
        assert ab[i] == a[i] && WithinAt(a, i, lo, mid);
      } else {
        assert ab[i] == b[i - |a|] && WithinAt(b, i - |a|, mid, hi);
      }
    }
  }

  /** Stage bounds can always be loosened. */
  lemma WidenWithin(calls: seq<Call>, lo: int, hi: int, lo': int, hi': int)
    requires StagesWithin(calls, lo, hi) && lo' <= lo && hi <= hi'
    ensures StagesWithin(calls, lo', hi')
  {
    forall i | 0 <= i < |calls|
      ensures WithinAt(calls, i, lo', hi')
    {
      assert WithinAt(calls, i, lo, hi);
    }
  }

  /** Putting an entry within the bounds in front of a trace within them keeps the trace within them. */
  lemma WithinCons(c: Call, calls: seq<Call>, lo: int, hi: int)
    requires c.Pause? || lo <= Stage(c) <= hi
    requires StagesWithin(calls, lo, hi)
    ensures StagesWithin([c] + calls, lo, hi)
  {
    var cc := [c] + calls;
    forall i | 0 <= i < |cc|
      ensures WithinAt(cc, i, lo, hi)
    {
      if i > 0 {
        assert cc[i] == calls[i - 1] && WithinAt(calls, i - 1, lo, hi);
      }
    }
  }

  /** A prefix of an ordered trace is ordered and keeps its stage bounds. */
  lemma PrefixOrdered(calls: seq<Call>, k: nat, lo: int, hi: int)
    requires k <= |calls| && InStageOrder(calls) && StagesWithin(calls, lo, hi)
    ensures InStageOrder(calls[..k]) && StagesWithin(calls[..k], lo, hi)
  {
    var p := calls[..k];
    forall i, j | 0 <= i < j < |p|
      ensures OrderedAt(p, i, j)
    {
      assert p[i] == calls[i] && p[j] == calls[j] && OrderedAt(calls, i, j);
    }
    forall i | 0 <= i < |p|
      ensures WithinAt(p, i, lo, hi)
    {
      assert p[i] == calls[i] && WithinAt(calls, i, lo, hi);
    }
  }

  /** A trace of requests of a single stage (and pauses) is ordered. */
  lemma SingleStageOrdered(calls: seq<Call>, s: int)
    requires StagesWithin(calls, s, s)
    ensures InStageOrder(calls)
  {
    forall i, j | 0 <= i < j < |calls|
      ensures OrderedAt(calls, i, j)
    {
      assert WithinAt(calls, i, s, s) && WithinAt(calls, j, s, s);
    }
  }
}
