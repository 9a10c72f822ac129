// The tb task scheduler of Task.cpp / Task.h, as a sequential abstraction:
// three task groups, each with a queue of pending one-shot jobs and a list of
// repeating jobs, and handles through which callers steer repeating jobs.
// Threads are not modelled; a worker thread or the repeater thread is a
// method that runs its loop to completion on the calling thread, and the
// millisecond clock is a parameter.

module Task {
  import opened Support

  const INT_MAX: int := 0x7fff_ffff
  const FINALIZED_ERROR: string := "Assignment attempted after Finalize()"
  /** Upper bound, in milliseconds, of the repeater thread's sleep. */
  const MAX_POLL: int := 1000
  /** Consecutive empty polls after which a non-warrior worker exits. */
  const MAX_DRY_RUNS: nat := 15

  datatype Priority = DEFAULT | IDLE | LOW | NORMAL | HIGH | URGENT | SUPER
  {
    /** The enumerator's numeric value; the source compares priorities by it. */
    function Value(): int
    {
      match this
      case DEFAULT => 0
      case IDLE => 1
      case LOW => 5
      case NORMAL => 10
      case HIGH => 11
      case URGENT => 20
      case SUPER => 21
    }
  }

  datatype GroupId = LowGroup | NormGroup | HighGroup

  /** Rank of a group, from the least to the most urgent. */
  function Rank(g: GroupId): nat
  {
    match g
    case LowGroup => 0
    case NormGroup => 1
    case HighGroup => 2
  }

  /** The group `assign` and the repeating `async` hand a job of priority `p` to. */
  function GroupFor(p: Priority): GroupId
  {
    match p
    case DEFAULT | NORMAL | HIGH => NormGroup
    case IDLE | LOW => LowGroup
    case URGENT | SUPER => HighGroup
  }

  /** The group routing is a partition of the priority values, DEFAULT aside. */
  lemma RoutingByValue(p: Priority)
    ensures GroupFor(p) == LowGroup <==> 1 <= p.Value() <= LOW.Value()
    ensures GroupFor(p) == HighGroup <==> p.Value() >= URGENT.Value()
    ensures GroupFor(p) == NormGroup <==> p == DEFAULT || NORMAL.Value() <= p.Value() <= HIGH.Value()
  {
  }

  /** Priorities that TBTaskGroup::Assign pushes to the front of the queue. */
  predicate PlacedAtFront(p: Priority)
  {
    p == SUPER || p == HIGH || p == LOW
  }

  /** Front placement is reserved for the most urgent priority routed to a group. */
  lemma FrontIsGroupMaximum(p: Priority)
    ensures PlacedAtFront(p) <==> forall q :: GroupFor(q) == GroupFor(p) ==> q.Value() <= p.Value()
  {
    if !PlacedAtFront(p) {
      var q := match GroupFor(p) case LowGroup => LOW case NormGroup => HIGH case HighGroup => SUPER;
      assert GroupFor(q) == GroupFor(p) && q.Value() > p.Value();
    }
  }

  /** The groups the switch fallthrough of CountPending / Finalize / ReInitialize visits. */
  function Covered(p: Priority): set<GroupId>
  {
    match p
    case DEFAULT | SUPER | URGENT => {HighGroup, NormGroup, LowGroup}
    case HIGH | NORMAL => {NormGroup, LowGroup}
    case LOW | IDLE => {LowGroup}
  }

  /**
   * A priority covers its own group and every less urgent one; DEFAULT, which
   * is routed to the normal group, covers all three.
   */
  lemma CoveredGroups(p: Priority, g: GroupId)
    ensures p != DEFAULT ==> (g in Covered(p) <==> Rank(g) <= Rank(GroupFor(p)))
    ensures p == DEFAULT ==> g in Covered(p)
    ensures GroupFor(p) in Covered(p)
  {
  }

  // ----- the pending queue -----

  /** A pending one-shot job, identified by its future. */
  type Job = nat

  /** The queue after TBTaskGroup::Assign placed `t` with priority `p`. */
  function Placed(q: seq<Job>, t: Job, p: Priority): seq<Job>
  {
    if PlacedAtFront(p) then [t] + q else q + [t]
  }

  datatype Submission = Submission(job: Job, prio: Priority)

  /** The queue after the submissions were assigned one by one to a group holding `q`. */
  function QueueAfter(q: seq<Job>, subs: seq<Submission>): seq<Job>
  {
    if subs == [] then q
    else
      var last := subs[|subs| - 1];
      Placed(QueueAfter(q, subs[..|subs| - 1]), last.job, last.prio)
  }

  /** Jobs of the front-placed submissions, in submission order. */
  function Fronts(subs: seq<Submission>): seq<Job>
  {
    if subs == [] then []
    else
      var last := subs[|subs| - 1];
      Fronts(subs[..|subs| - 1]) + (if PlacedAtFront(last.prio) then [last.job] else [])
  }

  /** Jobs of the back-placed submissions, in submission order. */
  function Backs(subs: seq<Submission>): seq<Job>
  {
    if subs == [] then []
    else
      var last := subs[|subs| - 1];
      Backs(subs[..|subs| - 1]) + (if PlacedAtFront(last.prio) then [] else [last.job])
  }

  function Reverse(s: seq<Job>): (r: seq<Job>)
    ensures |r| == |s|
  {
    if s == [] then [] else [s[|s| - 1]] + Reverse(s[..|s| - 1])
  }

  /**
   * Queue order: front-placed jobs come first, newest first (LIFO), then
   * whatever was already queued, then back-placed jobs oldest first (FIFO).
   * `_Next` pops the front, so this is also the order in which they run.
   */
  lemma {:induction false} QueueOrder(q: seq<Job>, subs: seq<Submission>)
    ensures QueueAfter(q, subs) == Reverse(Fronts(subs)) + q + Backs(subs)
  {
    if subs != [] {
      var init := subs[..|subs| - 1];
      var last := subs[|subs| - 1];
      QueueOrder(q, init);
      if PlacedAtFront(last.prio) {
        var f := Fronts(init) + [last.job];
        assert f[..|f| - 1] == Fronts(init);
        assert Reverse(f) == [last.job] + Reverse(Fronts(init));
        assert Backs(subs) == Backs(init);
      } else {
        assert Fronts(subs) == Fronts(init);
        assert Backs(subs) == Backs(init) + [last.job];
      }
    }
  }

  /** A later HIGH job overtakes an earlier NORMAL one in the normal group. */
  lemma HighOvertakesNormal(a: Job, b: Job, c: Job)
    ensures QueueAfter([], [Submission(a, NORMAL), Submission(b, HIGH), Submission(c, NORMAL)]) == [b, a, c]
  {
    var s1 := [Submission(a, NORMAL)];
    var s2 := s1 + [Submission(b, HIGH)];
    var subs := s2 + [Submission(c, NORMAL)];
    QueueOrder([], subs);
    assert s1[..0] == [];
    assert Fronts(s1) == [] && Backs(s1) == [a];
    assert s2[..1] == s1;
    assert Fronts(s2) == [b] && Backs(s2) == [a];
    assert subs[..2] == s2;
    assert Fronts(subs) == [b] && Backs(subs) == [a, c];
    assert [b][..0] == [];
    assert Reverse([b]) == [b];
    assert subs == [Submission(a, NORMAL), Submission(b, HIGH), Submission(c, NORMAL)];
    assert Reverse([b]) + [] + [a, c] == [b, a, c];
  }

  // ----- thread budget -----

  /** The priority a group adopts: DEFAULT stands for NORMAL. */
  function GroupPriority(p: Priority): Priority
  {
    if p == DEFAULT then NORMAL else p
  }

  datatype Capacity = Capacity(maxThreads: nat, maxInFlight: nat, inFlightResume: nat)

  function CapacityFor(threads: nat): Capacity
  {
    Capacity(threads, threads * 10, threads * 3)
  }

  /** The budget the TBTaskGroup constructor derives from `hw` hardware threads. */
  function ConstructedCapacity(p: Priority, hw: nat): Capacity
  {
    CapacityFor(if GroupPriority(p).Value() <= LOW.Value() then hw / 2 else hw)
  }

  /** The budget SetPriority derives; it tests the raw argument, not the adopted priority. */
  function ResetCapacity(p: Priority, hw: nat): Capacity
  {
    CapacityFor(if p.Value() > LOW.Value() then hw else hw / 2)
  }

  /**
   * Both formulas agree except for DEFAULT: a group built with DEFAULT gets the
   * full budget, SetPriority(DEFAULT) halves it, although both adopt NORMAL.
   * Low groups get half the hardware threads, none at all on one core.
   */
  lemma CapacityRules(p: Priority, hw: nat)
    ensures p != DEFAULT ==> ResetCapacity(p, hw) == ConstructedCapacity(p, hw)
    ensures ConstructedCapacity(DEFAULT, hw).maxThreads == hw
    ensures ResetCapacity(DEFAULT, hw).maxThreads == hw / 2
    ensures hw > 0 ==> ResetCapacity(DEFAULT, hw) != ConstructedCapacity(DEFAULT, hw)
    ensures GroupFor(p) == LowGroup && hw <= 1 ==> ConstructedCapacity(p, hw).maxThreads == 0
    ensures GroupFor(p) != LowGroup ==> ConstructedCapacity(p, hw).maxThreads == hw
  {
  }

  /** Thread count after Assign: one worker is started when the queue is long or no worker exists. */
  function ThreadsAfterAssign(threads: nat, depth: nat, maxThreads: nat): nat
  {
    if (depth > 5 || threads == 0) && threads < maxThreads then threads + 1 else threads
  }

  /** Assign starts at most one worker and never exceeds the budget by starting one. */
  lemma ThreadBudget(threads: nat, depth: nat, maxThreads: nat)
    ensures threads <= ThreadsAfterAssign(threads, depth, maxThreads) <= threads + 1
    ensures threads <= maxThreads ==> ThreadsAfterAssign(threads, depth, maxThreads) <= maxThreads
    ensures threads == 0 && maxThreads > 0 ==> ThreadsAfterAssign(threads, depth, maxThreads) == 1
  {
  }

  // ----- repeating jobs -----

  /** The observable state of a RepeatOwner; `runs` counts payload executions. */
  datatype OwnerState = OwnerState(count: int, interval: int, last: int, runs: nat)

  /** RepeatOwner::Execute at time `now`: the new state and whether the payload ran. */
  function Step(s: OwnerState, now: int): (OwnerState, bool)
  {
    var c := s.count - 1;
    if c < 0 then (s.(count := c, last := now), false)
    else (s.(count := c, last := now, runs := s.runs + 1), true)
  }

  /** `k` executions at time `now`. */
  function Steps(s: OwnerState, k: nat, now: int): OwnerState
  {
    if k == 0 then s else Step(Steps(s, k - 1, now), now).0
  }

  /**
   * A count budget of n runs the payload on each of the first n executions;
   * the next one takes the count to -1 and reports that the job is done.
   */
  lemma {:induction false} CountBudget(s: OwnerState, k: nat, now: int)
    requires 0 <= k <= s.count
    ensures Steps(s, k, now).count == s.count - k
    ensures Steps(s, k, now).runs == s.runs + k
    ensures k < s.count ==> Step(Steps(s, k, now), now).1
    ensures k == s.count ==> !Step(Steps(s, k, now), now).1
    ensures k == s.count ==> Step(Steps(s, k, now), now).0.runs == s.runs + k
  {
    if k > 0 {
      CountBudget(s, k - 1, now);
    }
  }

  /** An owner is due when its interval has elapsed since its last execution. */
  predicate Due(s: OwnerState, now: int)
  {
    now - s.last >= s.interval
  }

  /**
   * One pass of the repeater thread over the group's owners: the new owner
   * states, the position of the owner removed because its budget ran out
   * (-1 if none), the number of payload runs and the computed next delta.
   */
  datatype ScanResult = ScanResult(states: seq<OwnerState>, removed: int, ran: nat, nextDelta: int)

  /** The smallest of `nd` and the intervals of `ss`. */
  function MinInterval(ss: seq<OwnerState>, nd: int): (m: int)
    ensures m <= nd
    ensures forall i | 0 <= i < |ss| :: m <= ss[i].interval
    ensures m == nd || exists i | 0 <= i < |ss| :: m == ss[i].interval
  {
    if ss == [] then nd
    else
      var m := MinInterval(ss[1..], Min(nd, ss[0].interval));
      assert forall i | 1 <= i < |ss| :: ss[i] == ss[1..][i - 1];
      assert m != Min(nd, ss[0].interval) ==> exists i | 1 <= i < |ss| :: m == ss[i].interval;
      m
  }

  function Scan(ss: seq<OwnerState>, now: int, nd: int): (r: ScanResult)
    ensures |r.states| == |ss|
    ensures -1 <= r.removed < |ss|
    ensures r.removed >= 0 ==> r.nextDelta == 0
    ensures r.removed < 0 ==> r.nextDelta == MinInterval(ss, nd)
  {
    if ss == [] then ScanResult([], -1, 0, nd)
    else
      var s := ss[0];
      if Due(s, now) && !Step(s, now).1 then ScanResult([Step(s, now).0] + ss[1..], 0, 0, 0)
      else
        var s' := if Due(s, now) then Step(s, now).0 else s;
        var rest := Scan(ss[1..], now, Min(nd, s.interval));
        ScanResult([s'] + rest.states, if rest.removed < 0 then -1 else rest.removed + 1,
                   rest.ran + (if Due(s, now) then 1 else 0), rest.nextDelta)
  }

  /** The repeater's lower bound on its sleep, by the group's priority. */
  function MinDelay(p: Priority): int
  {
    if p.Value() > HIGH.Value() then 1 else if p.Value() > LOW.Value() then 2 else 5
  }

  function SleepAfter(nextDelta: int, minDelay: int): int
  {
    if nextDelta < minDelay then minDelay else nextDelta
  }

  /**
   * The sleep after a pass is the larger of the priority's minimum delay and
   * the smallest interval scanned (capped at one second), or the minimum delay
   * when an owner was removed; either way it lies in [minDelay, 1000].
   */
  lemma ScanSleep(ss: seq<OwnerState>, now: int, p: Priority)
    ensures var r := Scan(ss, now, MAX_POLL);
      var d := SleepAfter(r.nextDelta, MinDelay(p));
      && (r.removed >= 0 ==> d == MinDelay(p))
      && (r.removed < 0 ==> d == (if MinInterval(ss, MAX_POLL) < MinDelay(p) then MinDelay(p) else MinInterval(ss, MAX_POLL)))
      && MinDelay(p) <= d <= MAX_POLL
  {
  }

  /**
   * What one pass does to each owner: owners up to the removed one (all of
   * them if none was removed) execute when due, later ones are untouched; the
   * removed owner is the first one that was due with no budget left.
   */
  lemma {:induction false} ScanStates(ss: seq<OwnerState>, now: int, nd: int)
    ensures var r := Scan(ss, now, nd);
      && (forall j | 0 <= j < |ss| ::
            r.states[j] == (if (r.removed < 0 || j <= r.removed) && Due(ss[j], now) then Step(ss[j], now).0 else ss[j]))
      && (r.removed >= 0 ==> Due(ss[r.removed], now) && ss[r.removed].count <= 0)
      && (forall j | 0 <= j < |ss| && (r.removed < 0 || j < r.removed) :: !(Due(ss[j], now) && ss[j].count <= 0))
  {
    if ss != [] {
      var s := ss[0];
      if !(Due(s, now) && !Step(s, now).1) {
        ScanStates(ss[1..], now, Min(nd, s.interval));
        assert forall j | 1 <= j < |ss| :: ss[j] == ss[1..][j - 1];
      }
    }
  }

  /** Owners of a group, ascending by interval (the order Assign sorts them into). */
  ghost predicate SortedByInterval(os: seq<RepeatOwner>)
    reads os
  {
    forall i, j | 0 <= i < j < |os| :: os[i].interval <= os[j].interval
  }

  function InsertByInterval(os: seq<RepeatOwner>, o: RepeatOwner): (r: seq<RepeatOwner>)
    requires SortedByInterval(os)
    reads os, o
    ensures multiset(r) == multiset(os) + multiset{o}
    ensures forall x | x in r :: x in os || x == o
  {
    if os == [] then [o]
    else if o.interval < os[0].interval then [o] + os
    else
      assert os == [os[0]] + os[1..];
      [os[0]] + InsertByInterval(os[1..], o)
  }

  lemma {:induction false} InsertKeepsSorted(os: seq<RepeatOwner>, o: RepeatOwner)
    requires SortedByInterval(os)
    ensures SortedByInterval(InsertByInterval(os, o))
  {
    if os != [] && o.interval >= os[0].interval {
      var rest := InsertByInterval(os[1..], o);
      InsertKeepsSorted(os[1..], o);
      assert forall x | x in rest :: os[0].interval <= x.interval;
      var r := [os[0]] + rest;
      assert forall j | 1 <= j < |r| :: r[j] == rest[j - 1];
    }
  }

  /** The std::sort of the repeat owners by interval, as an insertion sort. */
  method SortByInterval(os: seq<RepeatOwner>) returns (r: seq<RepeatOwner>)
    ensures multiset(r) == multiset(os)
    ensures SortedByInterval(r)
  {
    r := [];
    for i := 0 to |os|
      invariant multiset(r) == multiset(os[..i])
      invariant forall x | x in r :: x in os
      invariant SortedByInterval(r)
    {
      InsertKeepsSorted(r, os[i]);
      r := InsertByInterval(r, os[i]);
      assert os[..i + 1] == os[..i] + [os[i]];
    }
    assert os[..|os|] == os;
  }

  /** The states of a list of owners. */
  ghost function OwnerStates(os: seq<RepeatOwner>): (r: seq<OwnerState>)
    reads os
    ensures |r| == |os|
    ensures forall i | 0 <= i < |os| :: r[i] == os[i].State()
  {
    if os == [] then [] else [os[0].State()] + OwnerStates(os[1..])
  }

  /** The handles watching a list of owners. */
  ghost function Watchers(os: seq<RepeatOwner>): set<Repeating?>
    reads os
  {
    set o | o in os :: o.watcher
  }

  /** priv::RepeatOwner: a repeating job with its budget, interval and watcher handle. */
  class RepeatOwner {
    var count: int
    var interval: int
    var last: int
    var watcher: Repeating?
    var origWatcher: Repeating?
    ghost var runs: nat
    ghost var destroyed: bool

    ghost function State(): OwnerState
      reads this
    {
      OwnerState(count, interval, last, runs)
    }

    constructor (interval: int, count: int)
      ensures State() == OwnerState(count, interval, 0, 0) && !destroyed
      ensures watcher != null && fresh(watcher) && watcher.owner == this && origWatcher == watcher
    {
      this.count := count;
      this.interval := interval;
      last := 0;
      runs := 0;
      destroyed := false;
      new;
      var w := new Repeating.Attached(this);
      watcher := w;
      origWatcher := w;
    }

    /** Stamps the time, spends one unit of budget and runs the payload if budget remained. */
    method Execute(now: int) returns (ok: bool)
      modifies this
      ensures (State(), ok) == Step(old(State()), now)
      ensures watcher == old(watcher) && origWatcher == old(origWatcher) && destroyed == old(destroyed)
    {
      last := now;
      count := count - 1;
      if count < 0 {
        return false;
      }
      runs := runs + 1;
      ok := true;
    }

    /** The handle watching this owner moved to `to` (null when it was destroyed). */
    method WatcherMoved(to: Repeating?)
      modifies this
      ensures watcher == to && origWatcher == null
      ensures State() == old(State()) && destroyed == old(destroyed)
    {
      origWatcher := null;
      watcher := to;
    }

    method SetInterval(i: int)
      modifies this
      ensures State() == old(State()).(interval := i)
      ensures watcher == old(watcher) && origWatcher == old(origWatcher) && destroyed == old(destroyed)
    {
      interval := i;
    }

    method SetCount(c: int)
      modifies this
      ensures State() == old(State()).(count := c)
      ensures watcher == old(watcher) && origWatcher == old(origWatcher) && destroyed == old(destroyed)
    {
      count := c;
    }

    /** The destructor: the watching handle loses its owner. */
    method Destroy()
      modifies this, watcher
      ensures destroyed && origWatcher == null
      ensures watcher == old(watcher) && State() == old(State())
      ensures watcher != null ==> watcher.owner == null && watcher.deathIsBliss == old(watcher.deathIsBliss)
    {
      if watcher != null {
        watcher.OwnerDestroyed();
      }
      origWatcher := null;
      destroyed := true;
    }
  }

  /** tb::Repeating: the move-only handle a caller keeps for a repeating job. */
  class Repeating {
    var owner: RepeatOwner?
    var deathIsBliss: bool

    constructor ()
      ensures owner == null && !deathIsBliss
    {
      owner := null;
      deathIsBliss := false;
    }

    constructor Attached(o: RepeatOwner?)
      ensures owner == o && !deathIsBliss
    {
      owner := o;
      deathIsBliss := false;
    }

    /** The move constructor: takes over the owner, which now reports to this handle. */
    constructor Move(other: Repeating)
      modifies other, other.owner
      ensures owner == old(other.owner) && deathIsBliss == old(other.deathIsBliss)
      ensures other.owner == null && other.deathIsBliss == old(other.deathIsBliss)
      ensures owner != null ==> owner.watcher == this && owner.origWatcher == null
      ensures old(other.owner) != null ==> old(other.owner).State() == old(other.owner.State())
      ensures old(other.owner) != null ==> old(other.owner).destroyed == old(other.owner.destroyed)
    {
      owner := other.owner;
      deathIsBliss := other.deathIsBliss;
      new;
      other.owner := null;
      if owner != null {
        owner.WatcherMoved(this);
      }
    }

    /** The destructor: the owner loses its watcher. */
    method Destroy()
      modifies owner
      ensures owner == old(owner)
      ensures owner != null ==> owner.watcher == null && owner.origWatcher == null
      ensures owner != null ==> owner.State() == old(owner.State()) && owner.destroyed == old(owner.destroyed)
    {
      if owner != null {
        owner.WatcherMoved(null);
      }
    }

    method Last() returns (r: int)
      ensures owner == null ==> r == 0
      ensures owner != null ==> r == owner.State().last
    {
      r := if owner != null then owner.last else 0;
    }

    method CountRemaining() returns (r: int)
      ensures owner == null ==> r == 0
      ensures owner != null ==> r == owner.State().count
    {
      r := if owner != null then owner.count else 0;
    }

    method Interval() returns (r: int)
      ensures owner == null ==> r == 0
      ensures owner != null ==> r == owner.State().interval
    {
      if owner != null {
        return owner.interval;
      }
      return 0;
    }

    method SetInterval(i: int) returns (ok: bool)
      modifies owner
      ensures ok <==> owner != null
      ensures ok ==> owner.State() == old(owner.State()).(interval := i) && owner.watcher == old(owner.watcher)
    {
      if owner != null {
        owner.SetInterval(i);
        return true;
      }
      return false;
    }

    method SetCount(c: int) returns (ok: bool)
      modifies owner
      ensures ok <==> owner != null
      ensures ok ==> owner.State() == old(owner.State()).(count := c) && owner.watcher == old(owner.watcher)
    {
      if owner != null {
        owner.SetCount(c);
        return true;
      }
      return false;
    }

    method OwnerDestroyed()
      modifies this
      ensures owner == null && deathIsBliss == old(deathIsBliss)
    {
      owner := null;
    }

    /**
     * Asks the low, normal and high groups in turn to cancel the owner; on
     * success the handle forgets it.
     */
    method Cancel(s: Scheduler) returns (ok: bool)
      requires s.Valid()
      modifies this, s.low, s.norm, s.high, owner, if owner == null then {} else {owner.watcher}
      ensures s.Valid()
      ensures ok <==> old(owner) != null && old(owner) in old(s.AllRepeats())
      ensures ok ==> owner == null && old(owner).destroyed
      ensures !ok ==> owner == old(owner) && unchanged(s.low, s.norm, s.high)
      ensures s.low.futures == old(s.low.futures) && s.norm.futures == old(s.norm.futures)
      ensures s.high.futures == old(s.high.futures)
    {
      if owner == null {
        return false;
      }
      ok := s.CancelOwner(owner);
      if ok {
        owner := null;
      }
    }
  }

  /** priv::TBTaskGroup: one priority level's queue, thread budget and repeaters. */
  class TaskGroup {
    var futures: seq<Job>
    var priority: Priority
    var finalized: bool
    var maxThreads: nat
    var maxInFlight: nat
    var inFlightResume: nat
    /** Number of worker threads started and not yet exited. */
    var threads: nat
    var repeats: seq<RepeatOwner>
    /** Whether the repeater thread is running. */
    var repeatThread: bool
    /**
     * The floor on the repeater's sleep, which the thread works out from the
     * group's priority once, when it starts, and keeps while it runs.
     */
    var repeatMinDelay: int
    /** Jobs run so far, in order. */
    ghost var executed: seq<Job>
    /** What std::thread::hardware_concurrency() reports. */
    const hw: nat

    ghost predicate Valid()
      reads this
    {
      && Distinct(repeats)
      && priority != DEFAULT
      && Capacity(maxThreads, maxInFlight, inFlightResume) == CapacityFor(maxThreads)
      && (repeatThread ==> 1 <= repeatMinDelay <= 5)
    }

    function Budget(): Capacity
      reads this
    {
      Capacity(maxThreads, maxInFlight, inFlightResume)
    }

    /** Everything but the queue and the run log stays as it was. */
    twostate predicate SameSetup()
      reads this
    {
      && priority == old(priority)
      && finalized == old(finalized)
      && Budget() == old(Budget())
      && threads == old(threads)
      && repeats == old(repeats)
      && repeatThread == old(repeatThread) && repeatMinDelay == old(repeatMinDelay)
    }

    /** What Finalize(true) leaves behind. */
    twostate predicate Drained()
      reads this
    {
      && finalized
      && futures == []
      && executed == old(executed) + old(futures)
      && repeats == []
      && priority == old(priority)
      && Budget() == old(Budget())
      && threads == old(threads)
      && repeatThread == old(repeatThread) && repeatMinDelay == old(repeatMinDelay)
    }

    constructor (p: Priority, hw: nat)
      ensures Valid()
      ensures this.hw == hw && priority == GroupPriority(p) && Budget() == ConstructedCapacity(p, hw)
      ensures futures == [] && executed == [] && repeats == []
      ensures !finalized && threads == 0 && !repeatThread && repeatMinDelay == 0
    {
      this.hw := hw;
      futures := [];
      executed := [];
      repeats := [];
      finalized := false;
      threads := 0;
      repeatThread := false;
      repeatMinDelay := 0;
      priority := if p == DEFAULT then NORMAL else p;
      maxThreads := hw;
      maxInFlight := hw * 10;
      inFlightResume := hw * 3;
      new;
      if priority.Value() <= LOW.Value() {
        maxThreads := hw / 2;
        maxInFlight := maxThreads * 10;
        inFlightResume := maxThreads * 3;
      }
    }

    method SetPriority(p: Priority)
      requires Valid()
      modifies this
      ensures Valid()
      ensures priority == GroupPriority(p) && Budget() == ResetCapacity(p, hw)
      ensures futures == old(futures) && executed == old(executed) && finalized == old(finalized)
      ensures threads == old(threads) && repeats == old(repeats) && repeatThread == old(repeatThread) && repeatMinDelay == old(repeatMinDelay)
    {
      if p == DEFAULT {
        priority := NORMAL;
      } else {
        priority := p;
      }
      if p.Value() > LOW.Value() {
        maxThreads := hw;
      } else {
        maxThreads := hw / 2;
      }
      maxInFlight := maxThreads * 10;
      inFlightResume := maxThreads * 3;
    }

    /** Queues a one-shot job, starting a worker when the budget allows. */
    method Assign(job: Job, prio: Priority) returns (r: Result<()>)
      requires Valid()
      modifies this
      ensures Valid()
      ensures old(finalized) ==> r == Err(FINALIZED_ERROR) && unchanged(this)
      ensures !old(finalized) ==> r.Ok? && futures == Placed(old(futures), job, prio)
      ensures !old(finalized) ==> threads == ThreadsAfterAssign(old(threads), |futures|, maxThreads)
      ensures executed == old(executed) && priority == old(priority) && finalized == old(finalized)
      ensures Budget() == old(Budget()) && repeats == old(repeats) && repeatThread == old(repeatThread) && repeatMinDelay == old(repeatMinDelay)
    {
      if finalized {
        return Err(FINALIZED_ERROR);
      }
      if PlacedAtFront(prio) {
        futures := [job] + futures;
      } else {
        futures := futures + [job];
      }
      if |futures| > 5 || threads == 0 {
        if threads < maxThreads {
          threads := threads + 1;
        }
      }
      r := Ok(());
    }

    /** Adds a repeating job, keeps the owners sorted by interval and starts the repeater. */
    method AssignRepeat(o: RepeatOwner) returns (r: Result<()>)
      requires Valid() && o !in repeats
      modifies this
      ensures Valid()
      ensures old(finalized) ==> r == Err(FINALIZED_ERROR) && unchanged(this)
      ensures !old(finalized) ==> r.Ok? && repeatThread
      ensures !old(finalized) && !old(repeatThread) ==> repeatMinDelay == MinDelay(priority)
      ensures old(repeatThread) ==> repeatMinDelay == old(repeatMinDelay)
      ensures !old(finalized) ==> multiset(repeats) == multiset(old(repeats)) + multiset{o} && SortedByInterval(repeats)
      ensures futures == old(futures) && executed == old(executed) && priority == old(priority)
      ensures finalized == old(finalized) && Budget() == old(Budget()) && threads == old(threads)
    {
      if finalized {
        return Err(FINALIZED_ERROR);
      }
      DistinctAppend(repeats, o);
      var sorted := SortByInterval(repeats + [o]);
      DistinctPermutation(repeats + [o], sorted);
      repeats := sorted;
      if !repeatThread {
        repeatThread := true;
        repeatMinDelay := MinDelay(priority);
      }
      r := Ok(());
    }

    /** Pops the front of the queue. */
    method Next() returns (j: Option<Job>)
      modifies this
      ensures old(futures) == [] ==> j == None && unchanged(this)
      ensures old(futures) != [] ==> j == Some(old(futures)[0]) && futures == old(futures)[1..]
      ensures executed == old(executed) && SameSetup()
    {
      if |futures| == 0 {
        return None;
      }
      j := Some(futures[0]);
      futures := futures[1..];
    }

    /** Runs the front job, if any, and returns the remaining depth. */
    method Execute() returns (depth: int)
      modifies this
      ensures old(futures) == [] ==> depth == 0 && unchanged(this)
      ensures old(futures) != [] ==> futures == old(futures)[1..] && executed == old(executed) + [old(futures)[0]]
      ensures old(futures) != [] ==> depth == |futures|
      ensures SameSetup()
    {
      var next := Next();
      if next.None? {
        return 0;
      }
      executed := executed + [next.value];
      depth := |futures|;
    }

    function CountPending(): (n: nat)
      reads this
      ensures n == 0 <==> futures == []
    {
      |futures|
    }

    /**
     * Finalize(true) refuses further assignments, runs every pending job on
     * the calling thread and forgets the repeating jobs; Finalize(false) only
     * reopens the group.
     */
    method Finalize(final: bool)
      requires Valid()
      modifies this
      ensures Valid()
      ensures final ==> Drained()
      ensures !final ==> !finalized && futures == old(futures) && executed == old(executed) && repeats == old(repeats)
      ensures !final ==> priority == old(priority) && Budget() == old(Budget()) && threads == old(threads)
      ensures !final ==> repeatThread == old(repeatThread) && repeatMinDelay == old(repeatMinDelay)
    {
      finalized := final;
      if !final {
        return;
      }
      while |futures| != 0
        invariant executed + futures == old(executed) + old(futures)
        invariant Valid() && finalized && repeats == old(repeats)
        invariant priority == old(priority) && Budget() == old(Budget()) && threads == old(threads)
        invariant repeatThread == old(repeatThread) && repeatMinDelay == old(repeatMinDelay)
        decreases |futures|
      {
        ghost var before := futures;
        var _ := Execute();
        assert before == [before[0]] + futures;
      }
      repeats := [];
    }

    /** Removes and destroys `rpt` if this group holds it. */
    method Cancel(rpt: RepeatOwner?) returns (ok: bool)
      requires Valid()
      modifies this, rpt, if rpt == null then {} else {rpt.watcher}
      ensures Valid()
      ensures ok <==> rpt != null && rpt in old(repeats)
      ensures ok ==> repeats == Without(old(repeats), rpt)
      ensures ok ==> rpt.destroyed && rpt.State() == old(rpt.State()) && rpt.watcher == old(rpt.watcher)
      ensures ok && rpt.watcher != null ==> rpt.watcher.owner == null
      ensures !ok ==> unchanged(this) && (rpt != null ==> unchanged(rpt))
      ensures !ok && rpt != null && old(rpt.watcher) != null ==> unchanged(old(rpt.watcher))
      ensures futures == old(futures) && executed == old(executed) && priority == old(priority)
      ensures finalized == old(finalized) && Budget() == old(Budget()) && threads == old(threads)
      ensures repeatThread == old(repeatThread) && repeatMinDelay == old(repeatMinDelay)
    {
      if rpt == null {
        return false;
      }
      if |repeats| == 0 {
        return false;
      }
      assert Distinct<RepeatOwner?>(repeats);
      var (rest, success) := EraseIf<RepeatOwner?>(repeats, rpt);
      EraseIfDistinct<RepeatOwner?>(repeats, rpt);
      if success {
        rpt.Destroy();
      }
      forall i | 0 <= i < |rest| ensures rest[i] != null {
        assert rest[i] in repeats;
      }
      repeats := rest;
      ok := success;
    }

    /**
     * A non-warrior worker thread: runs jobs until the group is finalized or
     * it has polled an empty queue 15 times in a row, then leaves the pool.
     * It returns how much it added to the executed total, which counts a job
     * only when jobs remain behind it.
     */
    method RunWorker() returns (counted: nat)
      requires Valid() && threads > 0
      modifies this
      ensures Valid()
      ensures threads == old(threads) - 1
      ensures futures == (if old(finalized) then old(futures) else [])
      ensures executed == old(executed) + (if old(finalized) then [] else old(futures))
      ensures counted == (if old(finalized) || old(futures) == [] then 0 else |old(futures)| - 1)
      ensures priority == old(priority) && finalized == old(finalized) && Budget() == old(Budget())
      ensures repeats == old(repeats) && repeatThread == old(repeatThread) && repeatMinDelay == old(repeatMinDelay)
    {
      var dryRuns := 0;
      counted := 0;
      while !finalized && dryRuns < MAX_DRY_RUNS
        invariant executed + futures == old(executed) + old(futures)
        invariant 0 <= dryRuns <= MAX_DRY_RUNS
        invariant dryRuns > 0 ==> futures == []
        invariant old(finalized) ==> futures == old(futures) && executed == old(executed) && counted == 0
        invariant !old(finalized) ==>
          counted == |old(futures)| - |futures| - (if futures == [] && old(futures) != [] then 1 else 0)
        invariant Valid() && threads == old(threads) && repeats == old(repeats)
        invariant priority == old(priority) && finalized == old(finalized) && Budget() == old(Budget())
        invariant repeatThread == old(repeatThread) && repeatMinDelay == old(repeatMinDelay)
        decreases |futures|, MAX_DRY_RUNS - dryRuns
      {
        ghost var before := futures;
        var depth := Execute();
        if before != [] {
          assert before == [before[0]] + futures;
        }
        if depth <= 0 {
          dryRuns := dryRuns + 1;
        } else {
          dryRuns := 0;
          counted := counted + 1;
        }
      }
      if !old(finalized) {
        assert futures == [];
        assert executed + futures == executed;
      }
      threads := threads - 1;
    }

    /** Erases the owner at position `k` from the list and destroys it. */
    method RemoveSpent(k: int)
      requires Valid() && 0 <= k < |repeats|
      modifies this, repeats[k], repeats[k].watcher
      ensures Valid()
      ensures repeats == Without(old(repeats), old(repeats)[k]) && old(repeats)[k].destroyed
      ensures forall j | 0 <= j < |old(repeats)| :: old(repeats)[j].State() == old(repeats[j].State())
      ensures futures == old(futures) && executed == old(executed) && priority == old(priority)
      ensures finalized == old(finalized) && Budget() == old(Budget()) && threads == old(threads)
      ensures repeatThread == old(repeatThread) && repeatMinDelay == old(repeatMinDelay)
    {
      var owner := repeats[k];
      var (rest, _) := EraseIf(repeats, owner);
      EraseIfDistinct(repeats, owner);
      owner.Destroy();
      repeats := rest;
    }

    /**
     * One pass of the repeater thread at time `now`: runs the due owners,
     * removes and destroys the first one whose budget is spent (ending the
     * pass), and returns the sleep before the next pass and the number of
     * payload runs.  The thread ends when no owner is left.
     */
    method RepeaterPass(now: int) returns (delay: int, ran: nat)
      requires Valid()
      modifies this, repeats, Watchers(repeats)
      ensures Valid()
      ensures var r := Scan(old(OwnerStates(repeats)), now, MAX_POLL);
        && delay == SleepAfter(r.nextDelta, repeatMinDelay)
        && ran == r.ran
        && (forall j | 0 <= j < |old(repeats)| :: old(repeats)[j].State() == r.states[j])
        && (r.removed < 0 ==> repeats == old(repeats))
        && (r.removed >= 0 ==> repeats == Without(old(repeats), old(repeats)[r.removed]) && old(repeats)[r.removed].destroyed)
      ensures repeatThread == (old(repeatThread) && repeats != []) && repeatMinDelay == old(repeatMinDelay)
      ensures futures == old(futures) && executed == old(executed) && priority == old(priority)
      ensures finalized == old(finalized) && Budget() == old(Budget()) && threads == old(threads)
    {
      var nextDelta, removed;
      nextDelta, ran, removed := ScanOwners(repeats, now);
      if removed >= 0 {
        RemoveSpent(removed);
      }
      if |repeats| == 0 {
        repeatThread := false;
      }
      delay := nextDelta;
      if delay < repeatMinDelay {
        delay := repeatMinDelay;
      }
    }
  }

  /**
   * The loop of one repeater pass over `os`: executes the due owners in order
   * and stops at the first whose budget is spent, reporting its position
   * (-1 if none), the payload runs and the next delta.  The removal that
   * follows the stop is done by the caller.
   */
  method ScanOwners(os: seq<RepeatOwner>, now: int) returns (nextDelta: int, ran: nat, removed: int)
    requires Distinct(os)
    modifies os
    ensures var r := Scan(old(OwnerStates(os)), now, MAX_POLL);
      && nextDelta == r.nextDelta && ran == r.ran && removed == r.removed
      && forall j | 0 <= j < |os| :: os[j].State() == r.states[j]
    ensures forall j | 0 <= j < |os| :: os[j].watcher == old(os[j].watcher) && os[j].destroyed == old(os[j].destroyed)
  {
    ghost var ss0 := OwnerStates(os);
    nextDelta := MAX_POLL;
    ran := 0;
    removed := -1;
    var i := 0;
    ghost var done: seq<OwnerState> := [];
    while i < |os|
      invariant 0 <= i <= |os| && |done| == i
      invariant forall j | 0 <= j < |os| :: os[j].State() == (done + ss0[i..])[j]
      invariant forall j | 0 <= j < |os| :: os[j].watcher == old(os[j].watcher) && os[j].destroyed == old(os[j].destroyed)
      invariant Scan(ss0, now, MAX_POLL) == Prefixed(done, ran, Scan(ss0[i..], now, nextDelta))
      decreases |os| - i
    {
      var owner := os[i];
      assert ss0[i..][1..] == ss0[i + 1..];
      var ok, due := VisitOwner(os, i, now, done, ss0);
      ghost var s := ss0[i];
      if !ok {
        PrefixedStop(done, ran, ss0[i..], now, nextDelta);
        done := done + [Visit(s, now)];
        nextDelta := 0;
        removed := i;
        break;
      }
      PrefixedStep(done, ran, ss0[i..], now, nextDelta);
      if due {
        ran := ran + 1;
      }
      done := done + [Visit(s, now)];
      if nextDelta > owner.interval {
        nextDelta := owner.interval;
      }
      i := i + 1;
    }
  }

  /** An owner after the repeater looked at it: executed if due. */
  function Visit(s: OwnerState, now: int): OwnerState
  {
    if Due(s, now) then Step(s, now).0 else s
  }

  /** The body of the repeater loop for owner `i`: execute it if its interval has elapsed. */
  method VisitOwner(os: seq<RepeatOwner>, i: int, now: int, ghost done: seq<OwnerState>, ghost ss: seq<OwnerState>)
    returns (ok: bool, due: bool)
    requires Distinct(os) && 0 <= i < |os| && |done| == i && |ss| == |os|
    requires forall j | 0 <= j < |os| :: os[j].State() == (done + ss[i..])[j]
    modifies os[i]
    ensures due <==> Due(ss[i], now)
    ensures ok <==> !(Due(ss[i], now) && !Step(ss[i], now).1)
    ensures forall j | 0 <= j < |os| :: os[j].State() == (done + [Visit(ss[i], now)] + ss[i + 1..])[j]
    ensures forall j | 0 <= j < |os| :: os[j].watcher == old(os[j].watcher) && os[j].destroyed == old(os[j].destroyed)
  {
    var owner := os[i];
    DistinctOthers(os, i);
    assert owner.State() == ss[i];
    ok := true;
    due := now - owner.last >= owner.interval;
    if due {
      ok := owner.Execute(now);
    }
    forall j | 0 <= j < |os|
      ensures os[j].State() == (done + [Visit(ss[i], now)] + ss[i + 1..])[j]
    {
      if j != i {
        assert os[j] != owner;
        assert (done + [Visit(ss[i], now)] + ss[i + 1..])[j] == (done + ss[i..])[j];
      }
    }
  }

  lemma DistinctOthers<T>(os: seq<T>, i: int)
    requires Distinct(os) && 0 <= i < |os|
    ensures forall j | 0 <= j < |os| && j != i :: os[j] != os[i]
  {
    forall j | 0 <= j < |os| && j != i ensures os[j] != os[i] {
      if j < i { DistinctIndices(os, j, i); } else { DistinctIndices(os, i, j); }
    }
  }

  /** Scanning an owner that is not removed moves it into the handled prefix. */
  lemma PrefixedStep(done: seq<OwnerState>, ran: nat, ss: seq<OwnerState>, now: int, nd: int)
    requires ss != [] && !(Due(ss[0], now) && !Step(ss[0], now).1)
    ensures Prefixed(done, ran, Scan(ss, now, nd))
         == Prefixed(done + [if Due(ss[0], now) then Step(ss[0], now).0 else ss[0]],
                     ran + (if Due(ss[0], now) then 1 else 0), Scan(ss[1..], now, Min(nd, ss[0].interval)))
  {
  }

  /** Scanning an owner that is removed ends the pass. */
  lemma PrefixedStop(done: seq<OwnerState>, ran: nat, ss: seq<OwnerState>, now: int, nd: int)
    requires ss != [] && Due(ss[0], now) && !Step(ss[0], now).1
    ensures Prefixed(done, ran, Scan(ss, now, nd))
         == ScanResult(done + [Step(ss[0], now).0] + ss[1..], |done|, ran, 0)
  {
  }

  /** A pass result for the owners after `done`, shifted behind the owners already handled. */
  function Prefixed(done: seq<OwnerState>, ran: nat, r: ScanResult): ScanResult
  {
    ScanResult(done + r.states, if r.removed < 0 then -1 else r.removed + |done|, ran + r.ran, r.nextDelta)
  }

  /** The three global task groups and the executed-job total. */
  class Scheduler {
    const low: TaskGroup
    const norm: TaskGroup
    const high: TaskGroup
    var totalExecuted: nat

    function Group(g: GroupId): TaskGroup
    {
      match g
      case LowGroup => low
      case NormGroup => norm
      case HighGroup => high
    }

    ghost function AllRepeats(): seq<RepeatOwner>
      reads low, norm, high
    {
      low.repeats + norm.repeats + high.repeats
    }

    ghost function AllFutures(): seq<seq<Job>>
      reads low, norm, high
    {
      [low.futures, norm.futures, high.futures]
    }

    /** Three distinct groups, each well formed. */
    ghost predicate Valid()
      reads this, low, norm, high
    {
      && low != norm && norm != high && low != high
      && low.Valid() && norm.Valid() && high.Valid()
    }

    /** The groups at static initialisation, on a machine with `hw` hardware threads. */
    constructor (hw: nat)
      ensures Valid() && totalExecuted == 0
      ensures low.priority == LOW && norm.priority == NORMAL && high.priority == URGENT
      ensures low.Budget() == CapacityFor(hw / 2) && norm.Budget() == CapacityFor(hw)
      ensures high.Budget() == CapacityFor(hw)
      ensures forall g :: Group(g).futures == [] && Group(g).repeats == [] && !Group(g).finalized
    {
      low := new TaskGroup(LOW, hw);
      norm := new TaskGroup(NORMAL, hw);
      high := new TaskGroup(URGENT, hw);
      totalExecuted := 0;
    }

    method SetDefaultPriority(p: Priority)
      requires Valid()
      modifies norm
      ensures Valid()
      ensures norm.priority == GroupPriority(p) && norm.Budget() == ResetCapacity(p, norm.hw)
      ensures norm.futures == old(norm.futures) && norm.repeats == old(norm.repeats)
    {
      norm.SetPriority(p);
    }

    /** Pending jobs in the groups `p` covers. */
    method CountPending(p: Priority) returns (n: nat)
      ensures n == (if HighGroup in Covered(p) then |high.futures| else 0)
                 + (if NormGroup in Covered(p) then |norm.futures| else 0)
                 + |low.futures|
    {
      n := 0;
      if p == DEFAULT || p == SUPER || p == URGENT {
        n := n + high.CountPending();
      }
      if p != LOW && p != IDLE {
        n := n + norm.CountPending();
      }
      n := n + low.CountPending();
    }

    /** Finalizes the groups `p` covers, most urgent first. */
    method Finalize(p: Priority)
      requires Valid()
      modifies low, norm, high
      ensures Valid()
      ensures HighGroup in Covered(p) ==> high.Drained()
      ensures NormGroup in Covered(p) ==> norm.Drained()
      ensures low.Drained()
      ensures HighGroup !in Covered(p) ==> unchanged(high)
      ensures NormGroup !in Covered(p) ==> unchanged(norm)
    {
      if p == DEFAULT || p == SUPER || p == URGENT {
        high.Finalize(true);
      }
      if p != LOW && p != IDLE {
        norm.Finalize(true);
      }
      low.Finalize(true);
    }

    /** Reopens the groups `p` covers and changes nothing else. */
    method ReInitialize(p: Priority)
      requires Valid()
      modifies low, norm, high
      ensures Valid()
      ensures forall g :: Group(g).finalized == (old(Group(g).finalized) && g !in Covered(p))
      ensures forall g :: Group(g).futures == old(Group(g).futures) && Group(g).repeats == old(Group(g).repeats)
      ensures forall g :: Group(g).executed == old(Group(g).executed) && Group(g).threads == old(Group(g).threads)
    {
      if p == DEFAULT || p == SUPER || p == URGENT {
        high.Finalize(false);
      }
      if p != LOW && p != IDLE {
        norm.Finalize(false);
      }
      low.Finalize(false);
    }

    /** The probe of Repeating::Cancel: low group, then normal, then high, stopping at the first success. */
    method CancelOwner(o: RepeatOwner) returns (ok: bool)
      requires Valid()
      modifies low, norm, high, o, o.watcher
      ensures Valid()
      ensures ok <==> o in old(low.repeats) || o in old(norm.repeats) || o in old(high.repeats)
      ensures ok ==> o.destroyed && (old(o.watcher) != null ==> old(o.watcher).owner == null)
      ensures o in old(low.repeats) ==>
        low.repeats == Without<RepeatOwner?>(old(low.repeats), o) && unchanged(norm, high)
      ensures o !in old(low.repeats) && o in old(norm.repeats) ==>
        norm.repeats == Without<RepeatOwner?>(old(norm.repeats), o) && unchanged(low, high)
      ensures o !in old(low.repeats) && o !in old(norm.repeats) && o in old(high.repeats) ==>
        high.repeats == Without<RepeatOwner?>(old(high.repeats), o) && unchanged(low, norm)
      ensures !ok ==> unchanged(low, norm, high) && unchanged(o)
      ensures !ok && old(o.watcher) != null ==> unchanged(old(o.watcher))
      ensures low.futures == old(low.futures) && norm.futures == old(norm.futures)
      ensures high.futures == old(high.futures)
    {
      ok := low.Cancel(o);
      if !ok {
        ok := norm.Cancel(o);
        if !ok {
          ok := high.Cancel(o);
        }
      }
    }

    method TotalExecuted() returns (n: nat)
      ensures n == totalExecuted
    {
      n := totalExecuted;
    }

    method ResetTotalExecuted()
      modifies this
      ensures totalExecuted == 0
    {
      totalExecuted := 0;
    }

    /** tb::assign: routes the job by priority and hands back the same future. */
    method Assign(job: Job, prio: Priority) returns (r: Result<Job>)
      requires Valid()
      modifies Group(GroupFor(prio))
      ensures Valid()
      ensures var g := Group(GroupFor(prio));
        && (old(g.finalized) ==> r == Err(FINALIZED_ERROR))
        && (!old(g.finalized) ==> r == Ok(job) && g.futures == Placed(old(g.futures), job, prio))
        && g.repeats == old(g.repeats)
    {
      var g := Group(GroupFor(prio));
      var res := g.Assign(job, prio);
      if res.Err? {
        return Err(res.msg);
      }
      r := Ok(job);
    }

    /** tb::async without a priority: DEFAULT, so the back of the normal queue. */
    method Async(job: Job) returns (r: Result<Job>)
      requires Valid()
      modifies norm
      ensures Valid()
      ensures old(norm.finalized) ==> r == Err(FINALIZED_ERROR)
      ensures !old(norm.finalized) ==> r == Ok(job) && norm.futures == old(norm.futures) + [job]
    {
      r := Assign(job, DEFAULT);
    }

    /**
     * The repeating tb::async: creates an owner with the given interval and
     * budget, routes it by priority, and moves its watcher into the handle
     * returned to the caller.
     */
    method AsyncRepeat(prio: Priority, interval: int, count: int) returns (r: Result<Repeating>)
      requires Valid()
      modifies Group(GroupFor(prio))
      ensures Valid()
      ensures var g := Group(GroupFor(prio));
        && (old(g.finalized) ==> r == Err(FINALIZED_ERROR))
        && (!old(g.finalized) ==> r.Ok? && fresh(r.value) && r.value.owner != null && fresh(r.value.owner))
        && (r.Ok? ==> r.value.owner != null && r.value.owner.watcher == r.value)
        && (r.Ok? ==> r.value.owner.State() == OwnerState(count, interval, 0, 0) && !r.value.owner.destroyed)
        && (r.Ok? ==> multiset(g.repeats) == multiset(old(g.repeats)) + multiset{r.value.owner})
        && g.futures == old(g.futures)
    {
      var o := new RepeatOwner(interval, count);
      var g := Group(GroupFor(prio));
      var res := g.AssignRepeat(o);
      if res.Err? {
        return Err(res.msg);
      }
      var h := new Repeating.Move(o.watcher);
      r := Ok(h);
    }

    /** async(interval, f): DEFAULT priority and an INT_MAX budget. */
    method AsyncEvery(interval: int) returns (r: Result<Repeating>)
      requires Valid()
      modifies norm
      ensures Valid()
      ensures old(norm.finalized) <==> r.Err?
      ensures r.Ok? ==> r.value.owner != null && r.value.owner.State() == OwnerState(INT_MAX, interval, 0, 0)
      ensures r.Ok? ==> r.value.owner in norm.repeats
    {
      r := AsyncRepeat(DEFAULT, interval, INT_MAX);
      if r.Ok? {
        assert r.value.owner in multiset(norm.repeats);
      }
    }

    /** async(interval, count, f): DEFAULT priority. */
    method AsyncTimes(interval: int, count: int) returns (r: Result<Repeating>)
      requires Valid()
      modifies norm
      ensures Valid()
      ensures old(norm.finalized) <==> r.Err?
      ensures r.Ok? ==> r.value.owner != null && r.value.owner.State() == OwnerState(count, interval, 0, 0)
      ensures r.Ok? ==> r.value.owner in norm.repeats
    {
      r := AsyncRepeat(DEFAULT, interval, count);
      if r.Ok? {
        assert r.value.owner in multiset(norm.repeats);
      }
    }

    /** async(prio, interval, f): an INT_MAX budget. */
    method AsyncEveryAt(prio: Priority, interval: int) returns (r: Result<Repeating>)
      requires Valid()
      modifies Group(GroupFor(prio))
      ensures Valid()
      ensures old(Group(GroupFor(prio)).finalized) <==> r.Err?
      ensures r.Ok? ==> r.value.owner != null && r.value.owner.State() == OwnerState(INT_MAX, interval, 0, 0)
      ensures r.Ok? ==> r.value.owner in Group(GroupFor(prio)).repeats
    {
      r := AsyncRepeat(prio, interval, INT_MAX);
      if r.Ok? {
        assert r.value.owner in multiset(Group(GroupFor(prio)).repeats);
      }
    }

    /** A non-warrior worker of group `g` runs to its exit; the total grows by what it counted. */
    method RunWorker(g: GroupId)
      requires Valid() && Group(g).threads > 0
      modifies this, Group(g)
      ensures Valid()
      ensures var n := |old(Group(g).futures)|;
        totalExecuted == old(totalExecuted) + (if old(Group(g).finalized) || n == 0 then 0 else n - 1)
      ensures Group(g).executed == old(Group(g).executed) + (if old(Group(g).finalized) then [] else old(Group(g).futures))
    {
      var counted := Group(g).RunWorker();
      totalExecuted := totalExecuted + counted;
    }

    /** One pass of group `g`'s repeater thread at time `now`; every payload run is counted. */
    method RepeaterPass(g: GroupId, now: int) returns (delay: int)
      requires Valid()
      modifies this, Group(g), Group(g).repeats, Watchers(Group(g).repeats)
      ensures Valid()
      ensures var r := Scan(old(OwnerStates(Group(g).repeats)), now, MAX_POLL);
        && delay == SleepAfter(r.nextDelta, old(Group(g).repeatMinDelay))
        && totalExecuted == old(totalExecuted) + r.ran
    {
      var grp := Group(g);
      var ran;
      delay, ran := grp.RepeaterPass(now);
      totalExecuted := totalExecuted + ran;
    }
  }
}
