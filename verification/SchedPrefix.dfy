/**
 What the scheduler guarantees when every process may migrate and none is pinned: the
 running processes are exactly the first ones of the priority queue, as many as there
 are processors; changes of priority included.
 */
module SchedPrefix {
  import opened Options
  import opened Sched
  import opened SchedFair
  import opened Pigeonhole

  ghost predicate Free(s: State) {
    forall p | p in s.procs :: s.procs[p].migrable && !s.procs[p].pinned
  }

  /** Exactly the first |flows| queued processes run. */
  ghost predicate Prefix(s: State) {
    forall i | 0 <= i < |s.queue| :: Is(s, s.queue[i], RunningState) <==> i < |s.flows|
  }

  ghost predicate Idle(s: State) {
    exists c :: 0 <= c < |s.flows| && s.flows[c].None?
  }

  // ---------- an idle processor means everybody runs ----------

  lemma IdleMeansShort(s: State)
    requires Kept(s) && Prefix(s)
    ensures Idle(s) <==> |s.queue| < |s.flows|
  {
    if |s.queue| >= |s.flows| {
      var f := seq(|s.flows|, i requires 0 <= i < |s.flows| => s.procs[s.queue[i]].cpu as nat);
      forall i | 0 <= i < |f| ensures f[i] < |s.flows| && s.flows[f[i]] == Some(s.queue[i]) { assert Is(s, s.queue[i], RunningState); }
      DifferentBelow(f, |s.flows|);
      forall c: nat | c < |s.flows| ensures s.flows[c].Some? { assert c in f; }
    } else if !Idle(s) {
      var g := seq(|s.flows|, c requires 0 <= c < |s.flows| => IndexOf(s.queue, Occupant(s, c)));
      forall c, d | 0 <= c < d < |g| ensures g[c] != g[d] {
        assert s.queue[g[c]] == Occupant(s, c) && s.queue[g[d]] == Occupant(s, d);
      }
      DifferentBelow(g, |s.queue|);
    }
  }

  ghost function Occupant(s: State, c: int): (p: Pid)
    requires Kept(s) && 0 <= c < |s.flows| && !Idle(s)
    ensures p in s.queue && Is(s, p, RunningState) && s.procs[p].cpu == c
  {
    s.flows[c].value
  }

  lemma FreeCpuIffIdle(s: State, r: Proc)
    requires CpusKept(s) && -1 <= r.cpu < |s.flows| && !r.pinned
    ensures FreeCpu(s, r).Some? <==> Idle(s)
  {
  }

  // ---------- scans over a prefix of running processes ----------

  /** Going back over processes that do not run, the scan reaches the last running one. */
  lemma {:induction false} VictimAt(s: State, n: nat, r: Proc, k: nat)
    requires Known(s, n) && k < n && !r.pinned && Is(s, s.queue[k], RunningState)
    requires forall i | k <= i < n :: s.procs[s.queue[i]].prio > r.prio
    requires forall i | k < i < n :: !Is(s, s.queue[i], RunningState)
    ensures Victim(s, n, r) == Some(s.queue[k])
    decreases n
  {
    if n - 1 > k { VictimAt(s, n - 1, r, k); }
  }

  /** Over processes none of which runs, down to one that is no worse, it finds nobody. */
  lemma {:induction false} VictimNowhere(s: State, n: nat, r: Proc, pos: nat)
    requires Known(s, n) && pos <= n
    requires forall i | pos <= i < n :: !Is(s, s.queue[i], RunningState)
    requires pos > 0 ==> s.procs[s.queue[pos - 1]].prio <= r.prio
    ensures Victim(s, n, r).None?
    decreases n
  {
    if n > pos && s.procs[s.queue[n - 1]].prio > r.prio { VictimNowhere(s, n - 1, r, pos); }
  }

  lemma {:induction false} QueueGetAt(s: State, c: int, n: nat, k: nat)
    requires Known(s, |s.queue|) && Free(s) && n <= k <= |s.queue|
    requires forall i | n <= i < k :: !Is(s, s.queue[i], ReadyState)
    requires k < |s.queue| ==> Is(s, s.queue[k], ReadyState)
    ensures QueueGet(s, c, n) == if k < |s.queue| then Some(s.queue[k]) else None
    decreases k - n
  {
    if n < k { QueueGetAt(s, c, n + 1, k); }
  }

  lemma {:induction false} PassedReadyAt(s: State, n: nat, e: nat, c: int, k: nat)
    requires Known(s, |s.queue|) && Free(s) && n <= k <= e <= |s.queue|
    requires forall i | n <= i < k :: !Is(s, s.queue[i], ReadyState)
    requires k < e ==> Is(s, s.queue[k], ReadyState)
    ensures PassedReady(s, n, e, c) == if k < e then Some(s.queue[k]) else None
    decreases k - n
  {
    if n < k { PassedReadyAt(s, n + 1, e, c, k); }
  }

  // ---------- makeRunnable ----------

  /** Putting p, who does not run, behind the running processes keeps the prefix. */
  lemma PrefixInserted(s: State, s1: State, p: Pid, pos: nat)
    requires Prefix(s) && |s.flows| <= pos <= |s.queue| && p !in s.queue && |s1.flows| == |s.flows|
    requires s1.queue == Insert(s.queue, pos, p) && !Is(s1, p, RunningState)
    requires forall x | x != p :: Is(s1, x, RunningState) <==> Is(s, x, RunningState)
    ensures Prefix(s1)
  {
    forall i | 0 <= i < |s1.queue| && i != pos ensures Is(s1, s1.queue[i], RunningState) <==> i < |s.flows| {
      assert s1.queue[i] == s.queue[if i < pos then i else i - 1];
    }
  }

  /** p ends behind the running processes: it waits, and the prefix stays. */
  lemma QuietNoVictim(s: State, p: Pid)
    requires QueueKept(s) && Prefix(s) && Is(s, p, InvalidState) && InsertPos(s, |s.queue|, s.procs[p].prio) >= |s.flows|
    ensures Victim(s, |s.queue|, s.procs[p]).None?
  {
    VictimNowhere(s, |s.queue|, s.procs[p], InsertPos(s, |s.queue|, s.procs[p].prio));
  }

  lemma QuietNoCpu(s: State, p: Pid)
    requires Kept(s) && Free(s) && Is(s, p, InvalidState) && !Idle(s)
    ensures Kept(BecomeReady(s, p)) && FreeCpu(BecomeReady(s, p), s.procs[p]).None?
  {
    QueueInsertKept(s, p);
    hide Distinct, Sorted, Insert, InsertPos;
    FreeCpuIffIdle(BecomeReady(s, p), s.procs[p]);
  }

  lemma QuietPrefix(s: State, p: Pid)
    requires QueueKept(s) && Prefix(s) && Is(s, p, InvalidState) && InsertPos(s, |s.queue|, s.procs[p].prio) >= |s.flows|
    ensures Prefix(BecomeReady(s, p))
  {
    NotQueued(s, p);
    hide Insert, InsertPos, Distinct;
    PrefixInserted(s, BecomeReady(s, p), p, InsertPos(s, |s.queue|, s.procs[p].prio));
  }

  lemma QuietInsert(s: State, p: Pid)
    requires Kept(s) && Free(s) && Prefix(s) && Is(s, p, InvalidState) && !Idle(s)
    requires InsertPos(s, |s.queue|, s.procs[p].prio) >= |s.flows|
    ensures MakeRunnable(s, p) == BecomeReady(s, p) && Prefix(BecomeReady(s, p))
  {
    QuietNoVictim(s, p);
    QuietNoCpu(s, p);
    QuietPrefix(s, p);
    hide FreeCpu, Victim, BecomeReady, Free, Prefix, Idle, Distinct, Sorted, CpusKept, PinsKept;
    assert MakeRunnable(s, p) == BecomeReady(s, p);
  }

  /** If everybody in a queue no longer than the processors runs, that is a prefix. */
  lemma AllRunPrefix(s: State)
    requires |s.queue| <= |s.flows| && forall x | x in s.queue :: Is(s, x, RunningState)
    ensures Prefix(s)
  {
  }

  /** A processor is idle: p runs, like everybody else. */
  lemma GrabPrefix(s: State, p: Pid, c: nat)
    requires Kept(s) && Free(s) && Prefix(s) && Is(s, p, InvalidState) && Idle(s)
    requires c < |s.flows| && s.flows[c].None?
    ensures Prefix(SwitchIn(BecomeReady(s, p), c, p))
  {
    IdleMeansShort(s);
    QueueInsertQueue(s, p);
    AllRunPrefix(SwitchIn(BecomeReady(s, p), c, p));
  }

  /** In a full prefix, p enters before the end and the last running process v leaves the queue. */
  lemma PrefixReplaced(s: State, s2: State, p: Pid, pos: nat)
    requires Prefix(s) && pos < |s.flows| <= |s.queue| && p !in s.queue && Distinct(s.queue)
    requires |s2.flows| == |s.flows|
    requires s2.queue == RemoveAt(Insert(s.queue, pos, p), |s.flows|) && Is(s2, p, RunningState)
    requires forall x | x != p && x != s.queue[|s.flows| - 1] :: Is(s2, x, RunningState) <==> Is(s, x, RunningState)
    ensures Prefix(s2)
  {
  }

  lemma FullVictim(s: State, p: Pid)
    requires Kept(s) && Free(s) && Prefix(s) && Is(s, p, InvalidState) && |s.queue| >= |s.flows|
    requires InsertPos(s, |s.queue|, s.procs[p].prio) < |s.flows|
    ensures var v := s.queue[|s.flows| - 1];
      Victim(s, |s.queue|, s.procs[p]) == Some(v) && Evictable(s, v, s.procs[p]) && s.procs[v].prio > s.procs[p].prio
  {
    VictimAt(s, |s.queue|, s.procs[p], |s.flows| - 1);
  }

  lemma EvictQueue(s: State, p: Pid, v: Pid, k: nat)
    requires QueueKept(s) && Sorted(s.procs, s.queue) && Is(s, p, InvalidState) && Evictable(s, v, s.procs[p]) && 0 <= s.procs[v].cpu < |s.flows|
    requires k < |s.queue| && s.queue[k] == v && InsertPos(s, |s.queue|, s.procs[p].prio) <= k
    ensures v in BecomeReady(s, p).queue
    ensures Evict(BecomeReady(s, p), v, p).queue == RemoveAt(Insert(s.queue, InsertPos(s, |s.queue|, s.procs[p].prio), p), k + 1)
  {
    hide Sorted, RemoveAt, Insert, InsertPos, IndexOf;
    QueueInsertQueue(s, p);
    InsertIndex(s.queue, InsertPos(s, |s.queue|, s.procs[p].prio), p, k);
    hide Distinct, QueueKept;
  }

  lemma InsertIndex(q: seq<Pid>, pos: nat, p: Pid, k: nat)
    requires pos <= k < |q| && Distinct(Insert(q, pos, p))
    ensures |Insert(q, pos, p)| == |q| + 1
    ensures q[k] in Insert(q, pos, p) && IndexOf(Insert(q, pos, p), q[k]) == k + 1
  {
    assert Insert(q, pos, p)[k + 1] == q[k];
    IndexUnique(Insert(q, pos, p), k + 1);
  }

  lemma IndexUnique(q: seq<Pid>, k: nat)
    requires Distinct(q) && k < |q|
    ensures IndexOf(q, q[k]) == k
  {
  }

  /** p gets in front of the last running process v, and takes its place. */
  lemma EvictPrefix(s: State, s2: State, p: Pid, v: Pid, pos: nat, r: Proc)
    requires Free(s) && Prefix(s) && Distinct(s.queue) && p !in s.queue && p in s.procs && v in s.procs
    requires pos < |s.flows| <= |s.queue| && v == s.queue[|s.flows| - 1] && |s2.flows| == |s.flows|
    requires s2.queue == RemoveAt(Insert(s.queue, pos, p), |s.flows|)
    requires s2.procs == s.procs[p := r][v := s.procs[v].(state := InvalidState)]
    requires r.state.RunningState? && r.migrable && !r.pinned
    ensures Prefix(s2) && Free(s2) && |s2.queue| == |s.queue|
  {
    assert p != v;
    PrefixReplaced(s, s2, p, pos);
  }

  /** One turn of the recursion. */
  lemma EvictStep(s: State, p: Pid, v: Pid)
    requires Kept(s) && Is(s, p, InvalidState) && FreeCpu(BecomeReady(s, p), s.procs[p]).None?
    requires Victim(s, |s.queue|, s.procs[p]) == Some(v)
    ensures var s1 := BecomeReady(s, p);
      && Is(s1, v, RunningState) && 0 <= s1.procs[v].cpu < |s1.flows| && v in s1.queue && Is(s1, p, ReadyState)
      && Kept(Evict(s1, v, p)) && Is(Evict(s1, v, p), v, InvalidState)
      && MakeRunnable(s, p) == MakeRunnable(Evict(s1, v, p), v)
  {
    EvictionShrinks(s, p, v);
  }

  /** The evicted process goes back behind the running ones: the last of those is no worse than it. */
  lemma EvictedGoesBehind(s: State, p: Pid, v: Pid, s2: State)
    requires Known(s, |s.queue|) && Sorted(s.procs, s.queue) && p in s.procs
    requires 0 < |s.flows| <= |s.queue| && v == s.queue[|s.flows| - 1]
    requires InsertPos(s, |s.queue|, s.procs[p].prio) < |s.flows|
    requires s2.queue == RemoveAt(Insert(s.queue, InsertPos(s, |s.queue|, s.procs[p].prio), p), |s.flows|)
    requires Known(s2, |s2.queue|) && forall x | x in s.procs :: x in s2.procs && s2.procs[x].prio == s.procs[x].prio
    ensures InsertPos(s2, |s2.queue|, s.procs[v].prio) >= |s.flows|
  {
    hide Sorted;
    var n, pos := |s.flows|, InsertPos(s, |s.queue|, s.procs[p].prio);
    assert s2.queue[n - 1] == if pos == n - 1 then p else s.queue[n - 2];
    if n > 1 { SortedAt(s, n - 2, n - 1); }
    assert s2.procs[s2.queue[n - 1]].prio <= s.procs[v].prio;
  }

  /** The state after the eviction: a full prefix again, with v's place behind it. */
  lemma EvictedState(s: State, p: Pid, v: Pid)
    requires Kept(s) && Free(s) && Prefix(s) && Is(s, p, InvalidState) && |s.queue| >= |s.flows|
    requires InsertPos(s, |s.queue|, s.procs[p].prio) < |s.flows|
    requires v == s.queue[|s.flows| - 1] && Evictable(s, v, s.procs[p])
    ensures v in BecomeReady(s, p).queue && 0 <= s.procs[v].cpu < |s.flows|
    ensures var s2 := Evict(BecomeReady(s, p), v, p);
      && Prefix(s2) && Free(s2) && |s2.queue| == |s.queue| && |s2.flows| == |s.flows|
      && (Kept(s2) ==> InsertPos(s2, |s2.queue|, s2.procs[v].prio) >= |s.flows|)
  {
    assert 0 <= s.procs[v].cpu < |s.flows|;
    hide Insert, RemoveAt, IndexOf, Sorted, Distinct, CpusKept, PinsKept, Victim, Known;
    var pos := InsertPos(s, |s.queue|, s.procs[p].prio);
    NotQueued(s, p);
    EvictQueue(s, p, v, |s.flows| - 1);
    EvictEffect(s, p, v);
    var s2 := Evict(BecomeReady(s, p), v, p);
    assert forall x | x in s.procs :: x in s2.procs && s2.procs[x].prio == s.procs[x].prio;
    hide InsertPos, BecomeReady, Evict, Prefix, Free, QueueKept;
    EvictPrefix(s, s2, p, v, pos, s2.procs[p]);
    if Kept(s2) { EvictedGoesBehind(s, p, v, s2); }
  }

  lemma EvictingPrefix(s: State, p: Pid)
    requires Kept(s) && Free(s) && Prefix(s) && Is(s, p, InvalidState) && !Idle(s)
    requires InsertPos(s, |s.queue|, s.procs[p].prio) < |s.flows|
    requires FreeCpu(BecomeReady(s, p), s.procs[p]).None?
    ensures Prefix(MakeRunnable(s, p)) && Free(MakeRunnable(s, p))
  {
    IdleMeansShort(s);
    FullVictim(s, p);
    var v := s.queue[|s.flows| - 1];
    EvictStep(s, p, v);
    EvictedState(s, p, v);
    var s2 := Evict(BecomeReady(s, p), v, p);
    IdleMeansShort(s2);
    QuietInsert(s2, v);
  }

  lemma MakeRunnablePrefix(s: State, p: Pid)
    requires Kept(s) && Free(s) && Prefix(s) && Is(s, p, InvalidState)
    ensures Prefix(MakeRunnable(s, p)) && Free(MakeRunnable(s, p))
  {
    QueueInsertKept(s, p);
    FreeCpuIffIdle(BecomeReady(s, p), s.procs[p]);
    if Idle(s) {
      GrabPrefix(s, p, FreeCpu(BecomeReady(s, p), s.procs[p]).value);
    } else if InsertPos(s, |s.queue|, s.procs[p].prio) >= |s.flows| {
      QuietInsert(s, p);
    } else {
      EvictingPrefix(s, p);
    }
  }

  // ---------- makeNonRunnable ----------

  /** Taking a waiting process out of the queue keeps the prefix; taking a running one out leaves room for the next. */
  lemma PrefixRemoved(s: State, s2: State, k: nat)
    requires Prefix(s) && k < |s.queue| && Distinct(s.queue) && |s2.flows| == |s.flows| && s2.queue == RemoveAt(s.queue, k)
    requires forall x | x != s.queue[k] :: Is(s2, x, RunningState) <==> Is(s, x, RunningState)
    requires !Is(s2, s.queue[k], RunningState)
    ensures k >= |s.flows| ==> Prefix(s2)
    ensures k < |s.flows| ==> forall i | 0 <= i < |s2.queue| :: Is(s2, s2.queue[i], RunningState) <==> i < |s.flows| - 1
  {
    forall i | 0 <= i < |s2.queue| ensures s2.queue[i] == s.queue[if i < k then i else i + 1] && s2.queue[i] != s.queue[k] {
    }
  }

  lemma RefillPrefix(s2: State, c: nat)
    requires QueueKept(s2) && Free(s2) && c < |s2.flows|
    requires forall i | 0 <= i < |s2.queue| :: Is(s2, s2.queue[i], RunningState) <==> i < |s2.flows| - 1
    ensures var next := QueueGet(s2, c, 0);
      if next.Some? then Prefix(SwitchIn(s2, c, next.value)) else Prefix(s2)
  {
    var n := |s2.flows|;
    var k := if |s2.queue| < n then |s2.queue| else n - 1;
    forall i | 0 <= i < |s2.queue| ensures Is(s2, s2.queue[i], ReadyState) <==> i >= n - 1 {
      assert s2.procs[s2.queue[i]].state.Runnable();
    }
    QueueGetAt(s2, c, 0, k);
  }

  lemma MakeNonRunnableFree(s: State, p: Pid)
    requires Kept(s) && Free(s) && p in s.procs && s.procs[p].state.Runnable()
    ensures Free(MakeNonRunnable(s, p))
  {
    hide Sorted, Distinct, RemoveAt, IndexOf;
    if s.procs[p].state.RunningState? { SwitchOutKept(s, p); }
  }

  /** p has left its processor and the queue. */
  lemma LeftPrefix(s: State, p: Pid)
    requires Kept(s) && Free(s) && Prefix(s) && Is(s, p, RunningState)
    ensures p in s.queue && 0 <= s.procs[p].cpu < |s.flows|
    ensures var s2 := BecomeNonReady(SwitchOut(s, s.procs[p].cpu, p), p);
      && Kept(s2) && Free(s2) && |s2.flows| == |s.flows|
      && forall i | 0 <= i < |s2.queue| :: Is(s2, s2.queue[i], RunningState) <==> i < |s2.flows| - 1
  {
    SwitchOutKept(s, p);
    QueueRemoveKept(SwitchOut(s, s.procs[p].cpu, p), p);
    var k, s2 := IndexOf(s.queue, p), BecomeNonReady(SwitchOut(s, s.procs[p].cpu, p), p);
    assert Distinct(s.queue) && k < |s.flows| && Free(s2);
    hide Kept, Distinct, RemoveAt, IndexOf, Free;
    PrefixRemoved(s, s2, k);
  }

  lemma MakeNonRunnablePrefix(s: State, p: Pid)
    requires Kept(s) && Free(s) && Prefix(s) && p in s.procs && s.procs[p].state.Runnable()
    ensures Prefix(MakeNonRunnable(s, p)) && Free(MakeNonRunnable(s, p))
  {
    hide Sorted, CpusKept, PinsKept, RemoveAt, Free;
    MakeNonRunnableFree(s, p);
    if s.procs[p].state.RunningState? {
      LeftPrefix(s, p);
      var c := s.procs[p].cpu;
      RefillPrefix(BecomeNonReady(SwitchOut(s, c, p), p), c);
    } else {
      PrefixRemoved(s, BecomeNonReady(s, p), IndexOf(s.queue, p));
    }
    hide Prefix, Kept;
    assert Prefix(MakeNonRunnable(s, p));
  }

  // ---------- setPriority ----------

  /** Moving a process within the running ones, or within the waiting ones, keeps the prefix. */
  lemma PrefixMoved(s: State, s': State, k: nat, pos: nat)
    requires Prefix(s) && k < |s.queue| && pos < |s.queue| && (k < |s.flows| <==> pos < |s.flows|)
    requires |s'.flows| == |s.flows| && s'.queue == Move(s.queue, k, pos)
    requires forall x :: Is(s', x, RunningState) <==> Is(s, x, RunningState)
    ensures Prefix(s')
  {
    forall i | 0 <= i < |s'.queue| && i != pos
      ensures s'.queue[i] == RemoveAt(s.queue, k)[if i < pos then i else i - 1]
    {
    }
  }

  /** Moving a waiting process among the running ones, it swaps with the last of them; */
  lemma PrefixMovedUp(s: State, s': State, k: nat, pos: nat)
    requires Prefix(s) && Distinct(s.queue) && pos < |s.flows| <= k < |s.queue|
    requires |s'.flows| == |s.flows| && s'.queue == Move(s.queue, k, pos) && Is(s', s.queue[k], RunningState)
    requires !Is(s', s.queue[|s.flows| - 1], RunningState)
    requires forall x | x != s.queue[k] && x != s.queue[|s.flows| - 1] :: Is(s', x, RunningState) <==> Is(s, x, RunningState)
    ensures Prefix(s')
  {
    forall i | 0 <= i < |s'.queue| && i != pos
      ensures s'.queue[i] == RemoveAt(s.queue, k)[if i < pos then i else i - 1]
    {
    }
  }

  /** moving a running process among the waiting ones, it swaps with the first of those. */
  lemma PrefixMovedDown(s: State, s': State, k: nat, pos: nat)
    requires Prefix(s) && Distinct(s.queue) && k < |s.flows| <= pos < |s.queue|
    requires |s'.flows| == |s.flows| && s'.queue == Move(s.queue, k, pos) && !Is(s', s.queue[k], RunningState)
    requires Is(s', s.queue[|s.flows|], RunningState)
    requires forall x | x != s.queue[k] && x != s.queue[|s.flows|] :: Is(s', x, RunningState) <==> Is(s, x, RunningState)
    ensures Prefix(s')
  {
    forall i | 0 <= i < |s'.queue| && i != pos
      ensures s'.queue[i] == RemoveAt(s.queue, k)[if i < pos then i else i - 1]
    {
    }
  }

  /** One process leaves its processor to another. */
  function Swap(s: State, c: nat, leaver: Pid, comer: Pid): State
    requires Is(s, leaver, RunningState) && c < |s.flows| && Is(s, comer, ReadyState) && s.procs[comer].MayUse(c)
  {
    SwitchIn(SwitchOut(s, c, leaver), c, comer)
  }

  lemma SwapEffect(s: State, c: nat, leaver: Pid, comer: Pid)
    requires Is(s, leaver, RunningState) && c < |s.flows| && Is(s, comer, ReadyState) && s.procs[comer].MayUse(c)
    requires Free(s)
    ensures var s' := Swap(s, c, leaver, comer);
      && s'.queue == s.queue && |s'.flows| == |s.flows| && Free(s')
      && forall x :: Is(s', x, RunningState) <==> x == comer || (x != leaver && Is(s, x, RunningState))
  {
  }

  /** The queue half of a change of priority. */
  lemma Reprioritized(s: State, p: Pid, prio: int)
    requires Kept(s) && Free(s) && p in s.procs && s.procs[p].state.Runnable() && prio != s.procs[p].prio
    ensures var s1 := Reprioritize(s, p, prio).0;
      && Free(s1) && s1.flows == s.flows && (forall x, st :: Is(s1, x, st) <==> Is(s, x, st))
  {
  }

  /** A better priority that leaves p among the running, or among the waiting, processes: nobody swaps. */
  lemma PromoteWithin(s: State, p: Pid, prio: int, k: nat, pos: nat)
    requires Kept(s) && Free(s) && Prefix(s) && p in s.procs && s.procs[p].state.Runnable() && prio < s.procs[p].prio
    requires k == IndexOf(s.queue, p) && pos == InsertPos(WithPrio(s, p, prio), k, prio)
    requires k < |s.flows| || |s.flows| <= pos
    ensures var (s1, other) := Reprioritize(s, p, prio);
      Prefix(s1) && Free(s1) && (s.procs[p].state.ReadyState? ==> other.None?)
  {
    hide CpusKept, PinsKept, Sorted, Distinct;
    var s0 := WithPrio(s, p, prio);
    Reprioritized(s, p, prio);
    PrefixMoved(s, Reprioritize(s, p, prio).0, k, pos);
    if |s.flows| <= pos { VictimNowhere(s0, k, s0.procs[p], pos); }
  }

  /** A better priority that brings p in front of running processes: the last of them makes room. */
  lemma PromoteAcross(s: State, p: Pid, prio: int, k: nat, pos: nat)
    requires Kept(s) && Free(s) && Prefix(s) && p in s.procs && s.procs[p].state.Runnable() && prio < s.procs[p].prio
    requires k == IndexOf(s.queue, p) && pos == InsertPos(WithPrio(s, p, prio), k, prio)
    requires pos < |s.flows| <= k
    ensures var (s1, other) := Reprioritize(s, p, prio); var v := s.queue[|s.flows| - 1];
      && other == Some(v) && Is(s1, v, RunningState) && Is(s1, p, ReadyState)
      && (0 <= s1.procs[v].cpu < |s1.flows| ==>
            Prefix(Swap(s1, s1.procs[v].cpu, v, p)) && Free(Swap(s1, s1.procs[v].cpu, v, p)))
  {
    hide CpusKept, PinsKept;
    var s0 := WithPrio(s, p, prio);
    var v := s.queue[|s.flows| - 1];
    Reprioritized(s, p, prio);
    VictimAt(s0, k, s0.procs[p], |s.flows| - 1);
    var s1 := Reprioritize(s, p, prio).0;
    if 0 <= s1.procs[v].cpu < |s1.flows| {
      SwapEffect(s1, s1.procs[v].cpu, v, p);
      PrefixMovedUp(s, Swap(s1, s1.procs[v].cpu, v, p), k, pos);
    }
  }

  lemma PromotePrefix(s: State, p: Pid, prio: int)
    requires Kept(s) && Free(s) && Prefix(s) && p in s.procs && s.procs[p].state.Runnable() && prio < s.procs[p].prio
    ensures Prefix(SetPriority(s, p, prio)) && Free(SetPriority(s, p, prio))
  {
    var k := IndexOf(s.queue, p);
    var pos := InsertPos(WithPrio(s, p, prio), k, prio);
    ReprioritizeKept(s, p, prio);
    if pos < |s.flows| <= k {
      PromoteAcross(s, p, prio, k, pos);
    } else {
      PromoteWithin(s, p, prio, k, pos);
      assert k < |s.flows| ==> s.procs[p].state.RunningState?;
    }
  }

  lemma DemoteWithinPasses(s: State, p: Pid, prio: int, k: nat, e: nat)
    requires QueueKept(s) && Free(s) && Prefix(s) && p in s.procs && s.procs[p].state.Runnable() && prio > s.procs[p].prio
    requires k == IndexOf(s.queue, p) && e == DemoteEnd(WithPrio(s, p, prio), k + 1, prio)
    requires |s.flows| <= k || e <= |s.flows|
    ensures s.procs[p].state.RunningState? ==> Reprioritize(s, p, prio).1.None?
  {
    hide Distinct, Move;
    if e <= |s.flows| { PassedReadyAt(WithPrio(s, p, prio), k + 1, e, s.procs[p].cpu, e); }
  }

  lemma DemoteWithin(s: State, p: Pid, prio: int, k: nat, e: nat)
    requires Kept(s) && Free(s) && Prefix(s) && p in s.procs && s.procs[p].state.Runnable() && prio > s.procs[p].prio
    requires k == IndexOf(s.queue, p) && e == DemoteEnd(WithPrio(s, p, prio), k + 1, prio)
    requires |s.flows| <= k || e <= |s.flows|
    ensures var (s1, other) := Reprioritize(s, p, prio);
      Prefix(s1) && Free(s1) && (s.procs[p].state.RunningState? ==> other.None?)
  {
    Reprioritized(s, p, prio);
    DemoteWithinPasses(s, p, prio, k, e);
    hide *;
    assert k < |s.queue|;
    DemotedQueue(s, p, prio, k, e);
    PrefixMoved(s, Reprioritize(s, p, prio).0, k, e - 1);
  }

  lemma DemotedQueue(s: State, p: Pid, prio: int, k: nat, e: nat)
    requires QueueKept(s) && p in s.procs && s.procs[p].state.Runnable() && prio > s.procs[p].prio
    requires k == IndexOf(s.queue, p) && e == DemoteEnd(WithPrio(s, p, prio), k + 1, prio)
    ensures k + 1 <= e <= |s.queue| && Reprioritize(s, p, prio).0.queue == Move(s.queue, k, e - 1)
  {
    hide Distinct, Move, PassedReady;
  }

  /** The first process waiting for a processor is the first ready one that p passes. */
  lemma DemoteFinds(s: State, p: Pid, prio: int, k: nat, e: nat)
    requires QueueKept(s) && Free(s) && Prefix(s) && p in s.procs && s.procs[p].state.Runnable() && prio > s.procs[p].prio
    requires k == IndexOf(s.queue, p) && e == DemoteEnd(WithPrio(s, p, prio), k + 1, prio)
    requires k < |s.flows| < e
    ensures Reprioritize(s, p, prio).1 == Some(s.queue[|s.flows|]) && Is(s, s.queue[|s.flows|], ReadyState)
    ensures Is(s, p, RunningState) && Reprioritize(s, p, prio).0.queue == Move(s.queue, k, e - 1)
  {
    hide Distinct, Move;
    assert s.procs[s.queue[|s.flows|]].state.Runnable();
    DemotePasses(s, p, prio, k, e);
    hide PassedReady, Free, Prefix;
    DemotedQueue(s, p, prio, k, e);
  }

  lemma DemotePasses(s: State, p: Pid, prio: int, k: nat, e: nat)
    requires QueueKept(s) && Free(s) && Prefix(s) && p in s.procs && s.procs[p].state.Runnable()
    requires k < |s.queue| && s.queue[k] == p && k + 1 <= e <= |s.queue| && k < |s.flows| < e
    ensures PassedReady(WithPrio(s, p, prio), k + 1, e, s.procs[p].cpu) == Some(s.queue[|s.flows|])
  {
    hide Distinct;
    assert s.procs[s.queue[|s.flows|]].state.Runnable();
    PassedReadyAt(WithPrio(s, p, prio), k + 1, e, s.procs[p].cpu, |s.flows|);
  }

  lemma DemoteAcross(s: State, p: Pid, prio: int, k: nat, e: nat)
    requires Kept(s) && Free(s) && Prefix(s) && p in s.procs && s.procs[p].state.Runnable() && prio > s.procs[p].prio
    requires k == IndexOf(s.queue, p) && e == DemoteEnd(WithPrio(s, p, prio), k + 1, prio)
    requires k < |s.flows| < e
    ensures var (s1, other) := Reprioritize(s, p, prio); var w := s.queue[|s.flows|];
      && other == Some(w) && Is(s1, w, ReadyState) && Is(s1, p, RunningState)
      && (0 <= s1.procs[p].cpu < |s1.flows| ==>
            Prefix(Swap(s1, s1.procs[p].cpu, p, w)) && Free(Swap(s1, s1.procs[p].cpu, p, w)))
  {
    hide Sorted, CpusKept, PinsKept;
    var w := s.queue[|s.flows|];
    DemoteFinds(s, p, prio, k, e);
    Reprioritized(s, p, prio);
    var s1 := Reprioritize(s, p, prio).0;
    SwapDown(s, s1, p, w, k, e - 1);
  }

  lemma SwapDown(s: State, s1: State, p: Pid, w: Pid, k: nat, pos: nat)
    requires Prefix(s) && Distinct(s.queue) && k < |s.flows| <= pos < |s.queue| && p == s.queue[k] && w == s.queue[|s.flows|]
    requires Free(s1) && s1.flows == s.flows && s1.queue == Move(s.queue, k, pos)
    requires forall x, st :: Is(s1, x, st) <==> Is(s, x, st)
    requires Is(s1, p, RunningState) && Is(s1, w, ReadyState)
    ensures 0 <= s1.procs[p].cpu < |s1.flows| ==>
              Prefix(Swap(s1, s1.procs[p].cpu, p, w)) && Free(Swap(s1, s1.procs[p].cpu, p, w))
  {
    if 0 <= s1.procs[p].cpu < |s1.flows| {
      SwapEffect(s1, s1.procs[p].cpu, p, w);
      PrefixMovedDown(s, Swap(s1, s1.procs[p].cpu, p, w), k, pos);
    }
  }

  lemma DemotePrefix(s: State, p: Pid, prio: int)
    requires Kept(s) && Free(s) && Prefix(s) && p in s.procs && s.procs[p].state.Runnable() && prio > s.procs[p].prio
    ensures Prefix(SetPriority(s, p, prio)) && Free(SetPriority(s, p, prio))
  {
    var k := IndexOf(s.queue, p);
    var e := DemoteEnd(WithPrio(s, p, prio), k + 1, prio);
    ReprioritizeKept(s, p, prio);
    if k < |s.flows| < e {
      DemoteAcross(s, p, prio, k, e);
    } else {
      DemoteWithin(s, p, prio, k, e);
    }
  }

  lemma SetPriorityPrefix(s: State, p: Pid, prio: int)
    requires Kept(s) && Free(s) && Prefix(s) && p in s.procs
    ensures Prefix(SetPriority(s, p, prio)) && Free(SetPriority(s, p, prio))
  {
    if prio != s.procs[p].prio && s.procs[p].state.Runnable() {
      if prio < s.procs[p].prio { PromotePrefix(s, p, prio); } else { DemotePrefix(s, p, prio); }
    }
  }
}
