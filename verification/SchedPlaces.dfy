/**
 Where the scheduler puts a process: which processor it gets, whom it replaces, who else
 changes, and its place in the queue. Nothing here speaks of the scans that find them.
 */
module SchedPlaces {
  import opened Options
  import opened Sched
  import opened SchedFair

  // ---------- who runs where, who changed ----------

  ghost predicate RunsOn(s: State, p: Pid, c: int) {
    && Is(s, p, RunningState) && s.procs[p].cpu == c
    && 0 <= c < |s.flows| && s.flows[c] == Some(p)
  }

  ghost predicate IdleAt(s: State, c: int) {
    0 <= c < |s.flows| && s.flows[c].None?
  }

  /** Only the processes in `who` differ. */
  ghost predicate OnlyChanged(s: State, s': State, who: set<Pid>) {
    && s'.procs.Keys == s.procs.Keys
    && forall x | x in s.procs && x !in who :: s'.procs[x] == s.procs[x]
  }

  /** Processor c is what p gets without replacing anybody: its own, if that is idle, else, unless p is pinned, the
      first idle one in the order of seeking. */
  ghost predicate FreePlace(s: State, p: Pid, c: int)
    requires p in s.procs
  {
    var own := s.procs[p].cpu;
    if IdleAt(s, own) then c == own
    else
      && !s.procs[p].pinned
      && exists j :: 0 <= j < |s.order| && s.order[j] == c && IdleAt(s, c) && forall i | 0 <= i < j :: !IdleAt(s, s.order[i])
  }

  /** The process at k runs on a processor that p may use, and is strictly worse than p. */
  ghost predicate Replaceable(s: State, p: Pid, k: int)
    requires p in s.procs && 0 <= k < |s.queue|
  {
    var w := s.queue[k];
    && Is(s, w, RunningState) && s.procs[w].prio > s.procs[p].prio
    && (!s.procs[p].pinned || s.procs[p].cpu == s.procs[w].cpu)
  }

  /** v is the last in the queue that p can replace. */
  ghost predicate LastReplaceable(s: State, p: Pid, v: Pid)
    requires p in s.procs
  {
    exists k :: 0 <= k < |s.queue| && s.queue[k] == v && Replaceable(s, p, k) && forall i | k < i < |s.queue| :: !Replaceable(s, p, i)
  }

  // ---------- the scans find what they should ----------

  lemma {:induction false} FirstAvailIs(order: seq<nat>, avail: set<nat>) returns (j: nat)
    requires FirstAvail(order, avail).Some?
    ensures j < |order| && FirstAvail(order, avail) == Some(order[j]) && order[j] in avail
    ensures forall i | 0 <= i < j :: order[i] !in avail
  {
    if order[0] in avail {
      j := 0;
    } else {
      var j' := FirstAvailIs(order[1..], avail);
      j := j' + 1;
      forall i | 0 <= i < j ensures order[i] !in avail { assert i > 0 ==> order[i] == order[1..][i - 1]; }
    }
  }

  lemma FreeCpuIs(s: State, p: Pid)
    requires CpusKept(s) && p in s.procs && -1 <= s.procs[p].cpu < |s.flows|
    ensures var c := FreeCpu(s, s.procs[p]);
      && (c.Some? ==> FreePlace(s, p, c.value))
      && (c.None? ==> forall x :: !FreePlace(s, p, x))
  {
    var r := s.procs[p];
    forall i | 0 <= i < |s.order| ensures s.order[i] in s.avail <==> IdleAt(s, s.order[i]) {}
    if !IdleAt(s, r.cpu) && !r.pinned && FirstAvail(s.order, s.avail).Some? {
      var j := FirstAvailIs(s.order, s.avail);
    }
  }

  /** There is one such processor at most. */
  lemma FreePlaceIsOne(s: State, p: Pid, c: int, d: int)
    requires p in s.procs && FreePlace(s, p, c) && FreePlace(s, p, d)
    ensures c == d
  {
  }

  /** Nobody up to n is replaceable if the one before n is no worse than p. */
  lemma NoneBefore(s: State, n: nat, p: Pid, i: nat)
    requires Sorted(s.procs, s.queue) && i < n <= |s.queue| && p in s.procs
    requires s.queue[i] in s.procs && s.queue[n - 1] in s.procs && s.procs[s.queue[n - 1]].prio <= s.procs[p].prio
    ensures !Replaceable(s, p, i)
  {
    SortedAt(s, i, n - 1);
  }

  lemma {:induction false} VictimIs(s: State, n: nat, p: Pid)
    requires Known(s, |s.queue|) && Sorted(s.procs, s.queue) && n <= |s.queue| && p in s.procs
    requires forall i | n <= i < |s.queue| :: !Replaceable(s, p, i)
    ensures var v := Victim(s, n, s.procs[p]);
      && (v.Some? ==> LastReplaceable(s, p, v.value))
      && (v.None? ==> forall w :: !LastReplaceable(s, p, w))
    decreases n
  {
    hide Sorted, LastReplaceable;
    if n == 0 || s.procs[s.queue[n - 1]].prio <= s.procs[p].prio {
      forall i | 0 <= i < n ensures !Replaceable(s, p, i) { NoneBefore(s, n, p, i); }
      NoneAtAll(s, p);
    } else if Evictable(s, s.queue[n - 1], s.procs[p]) {
      LastAt(s, p, n - 1);
    } else {
      VictimIs(s, n - 1, p);
    }
  }

  lemma NoneAtAll(s: State, p: Pid)
    requires p in s.procs && forall i | 0 <= i < |s.queue| :: !Replaceable(s, p, i)
    ensures forall w :: !LastReplaceable(s, p, w)
  {
    hide Replaceable;
  }

  lemma LastAt(s: State, p: Pid, k: nat)
    requires p in s.procs && k < |s.queue| && Replaceable(s, p, k)
    requires forall i | k < i < |s.queue| :: !Replaceable(s, p, i)
    ensures LastReplaceable(s, p, s.queue[k])
  {
    hide Replaceable;
  }

  // ---------- making a process runnable ----------

  /** p alone changed: it runs on c, */
  ghost predicate TookIdle(s: State, s': State, p: Pid, c: int) {
    RunsOn(s', p, c) && OnlyChanged(s, s', {p}) && IdleAt(s, c) && s'.flows == s.flows[c := Some(p)]
  }

  /** or it waits with all else as it was. */
  ghost predicate Waited(s: State, s': State, p: Pid)
  {
    && OnlyChanged(s, s', {p}) && s'.flows == s.flows
    && p in s.procs && p in s'.procs && s'.procs[p] == s.procs[p].(state := ReadyState)
  }

  lemma BecomeReadyOnly(s: State, p: Pid)
    requires QueueKept(s) && Is(s, p, InvalidState)
    ensures var s1 := BecomeReady(s, p); Waited(s, s1, p) && s1.order == s.order && s1.avail == s.avail
    ensures forall c :: FreePlace(BecomeReady(s, p), p, c) <==> FreePlace(s, p, c)
  {
    hide Insert, InsertPos;
    var s1 := BecomeReady(s, p);
    assert forall c :: IdleAt(s1, c) <==> IdleAt(s, c);
  }

  /** A processor is free for p: it runs there, on the one of its choice if that is idle, and nobody else moves. */
  lemma GetsFreePlace(s: State, p: Pid, c: int)
    requires Kept(s) && Is(s, p, InvalidState) && FreePlace(s, p, c)
    ensures TookIdle(s, MakeRunnable(s, p), p, c)
  {
    hide Insert, InsertPos, Victim, Distinct, Sorted, FreeCpu;
    QueueInsertKept(s, p);
    BecomeReadyOnly(s, p);
    var s1 := BecomeReady(s, p);
    FreeCpuIs(s1, p);
    SameFreeCpu(s1, s.procs[p], s1.procs[p]);
    var d := FreeCpu(s1, s.procs[p]);
    if d.Some? {
      FreePlaceIsOne(s1, p, c, d.value);
      hide FreePlace, Kept, QueueKept, CpusKept, PinsKept;
      assert MakeRunnable(s, p) == SwitchIn(s1, d.value, p);
      TakesIdle(s, s1, p, d.value);
    }
  }

  lemma SameFreeCpu(s: State, r: Proc, r': Proc)
    requires CpusKept(s) && -1 <= r.cpu < |s.flows| && r'.cpu == r.cpu && r'.pinned == r.pinned
    ensures FreeCpu(s, r) == FreeCpu(s, r')
  {
  }

  lemma TakesIdle(s: State, s1: State, p: Pid, c: nat)
    requires Waited(s, s1, p) && c < |s1.flows| && s1.flows[c].None? && s1.procs[p].MayUse(c)
    ensures TookIdle(s, SwitchIn(s1, c, p), p, c)
  {
  }

  // ---------- who is left alone ----------

  /** Whoever is no worse than p, and not p. */
  ghost predicate NoWorse(s: State, p: Pid, x: Pid) {
    x in s.procs && p in s.procs && x != p && s.procs[x].prio <= s.procs[p].prio
  }

  ghost predicate LeftAlone(s: State, s': State, p: Pid) {
    s'.procs.Keys == s.procs.Keys && forall x | NoWorse(s, p, x) :: s'.procs[x] == s.procs[x]
  }

  /** What an eviction makes of the processes and the processors. */
  ghost predicate Replaced(s: State, s2: State, p: Pid, v: Pid)
    requires p in s.procs && v in s.procs
  {
    && p != v && s2.procs.Keys == s.procs.Keys
    && s2.procs[v] == s.procs[v].(state := InvalidState)
    && s2.procs[p] == s.procs[p].(state := RunningState, cpu := s.procs[v].cpu, pinned := s2.procs[p].pinned)
    && OnlyChanged(s, s2, {p, v})
    && 0 <= s.procs[v].cpu < |s.flows| && s2.flows == s.flows[s.procs[v].cpu := Some(p)]
  }

  lemma EvictReplaces(s: State, p: Pid, v: Pid)
    requires Kept(s) && Is(s, p, InvalidState) && v in s.queue && Evictable(s, v, s.procs[p])
    requires s.procs[v].prio > s.procs[p].prio
    ensures var s1 := BecomeReady(s, p);
      && Kept(s1) && Is(s1, p, ReadyState) && Is(s1, v, RunningState) && 0 <= s1.procs[v].cpu < |s1.flows| && v in s1.queue
      && Replaced(s, Evict(s1, v, p), p, v) && Kept(Evict(s1, v, p)) && Is(Evict(s1, v, p), v, InvalidState)
  {
    hide Evict, BecomeReady, QueueKept, Sorted, PinsKept;
    EvictionShrinks(s, p, v);
    KeptQueue(s);
    EvictEffect(s, p, v);
  }

  lemma KeptQueue(s: State)
    requires Kept(s)
    ensures QueueKept(s) && Known(s, |s.queue|) && Sorted(s.procs, s.queue) && Distinct(s.queue)
  {
    hide Sorted, Distinct;
  }

  /** Either p finds its place at once, or it evicts v and all goes on with v. */
  lemma EvictsOrNot(s: State, p: Pid) returns (v: Option<Pid>, s2: State)
    requires Kept(s) && Is(s, p, InvalidState)
    ensures Kept(BecomeReady(s, p)) && Known(s, |s.queue|)
    ensures v.None? ==> FreeCpu(BecomeReady(s, p), s.procs[p]).Some? || Victim(s, |s.queue|, s.procs[p]).None?
    ensures v.Some? ==>
      && v.value in s.queue && Evictable(s, v.value, s.procs[p]) && s.procs[v.value].prio > s.procs[p].prio
      && Replaced(s, s2, p, v.value) && Kept(s2) && Is(s2, v.value, InvalidState)
      && Is(BecomeReady(s, p), v.value, RunningState) && s2 == MadeRoom(s, p, v.value)
      && MakeRunnable(s, p) == MakeRunnable(s2, v.value)
      && |Worse(s2, s2.procs[v.value].prio)| < |Worse(s, s.procs[p].prio)|
  {
    hide Sorted, Distinct, Worse, BecomeReady, QueueKept, FreeCpu, Victim;
    QueueInsertKept(s, p);
    KeptQueue(s);
    BecomeReadyOnly(s, p);
    v, s2 := None, s;
    if FreeCpu(BecomeReady(s, p), s.procs[p]).None? && Victim(s, |s.queue|, s.procs[p]).Some? {
      v := Victim(s, |s.queue|, s.procs[p]);
      EvictReplaces(s, p, v.value);
      EvictionShrinks(s, p, v.value);
      hide Evict;
      s2 := Evict(BecomeReady(s, p), v.value, p);
    }
  }

  /** p in v's place, and v out of the queue. */
  ghost function MadeRoom(s: State, p: Pid, v: Pid): State
    requires Kept(s) && Is(s, p, InvalidState) && v in s.queue && Evictable(s, v, s.procs[p])
    requires s.procs[v].prio > s.procs[p].prio
  {
    EvictReplaces(s, p, v);
    Evict(BecomeReady(s, p), v, p)
  }

  lemma QuietLeavesAlone(s: State, p: Pid)
    requires Kept(s) && Is(s, p, InvalidState)
    requires Kept(BecomeReady(s, p))
    requires FreeCpu(BecomeReady(s, p), s.procs[p]).Some? || (Known(s, |s.queue|) && Victim(s, |s.queue|, s.procs[p]).None?)
    ensures LeftAlone(s, MakeRunnable(s, p), p)
  {
    hide Distinct, Sorted, Insert, InsertPos, FreeCpu, Victim;
    BecomeReadyOnly(s, p);
  }

  lemma LeftThrough(s: State, s2: State, s': State, p: Pid, v: Pid)
    requires p in s.procs && v in s.procs && Replaced(s, s2, p, v) && s.procs[v].prio > s.procs[p].prio && LeftAlone(s2, s', v)
    ensures LeftAlone(s, s', p)
  {
    forall x | NoWorse(s, p, x) ensures s'.procs[x] == s.procs[x] { assert NoWorse(s2, v, x); }
  }

  /** However far evictions spread, nobody as good as p is touched. */
  lemma {:induction false} BetterLeftAlone(s: State, p: Pid)
    requires Kept(s) && Is(s, p, InvalidState)
    ensures LeftAlone(s, MakeRunnable(s, p), p)
    decreases |Worse(s, s.procs[p].prio)|
  {
    hide MakeRunnable, BecomeReady, Kept, Worse, LeftAlone, Replaced, Victim, FreeCpu, MadeRoom;
    var v, s2 := EvictsOrNot(s, p);
    if v.None? {
      QuietLeavesAlone(s, p);
    } else {
      BetterLeftAlone(s2, v.value);
      LeftThrough(s, s2, MakeRunnable(s2, v.value), p, v.value);
    }
  }

  /** No processor is free for p, and v is the last in the queue that p can replace: p runs in v's place, nobody as good
      as p changes, and v itself becomes runnable anew. */
  lemma ReplacesLast(s: State, p: Pid, v: Pid) returns (s2: State)
    requires Kept(s) && Is(s, p, InvalidState) && (forall c :: !FreePlace(s, p, c)) && LastReplaceable(s, p, v)
    ensures RunsOn(MakeRunnable(s, p), p, s.procs[v].cpu) && LeftAlone(s, MakeRunnable(s, p), p)
    ensures v in s.procs && Replaced(s, s2, p, v) && Kept(s2) && Is(s2, v, InvalidState) && MakeRunnable(s, p) == MakeRunnable(s2, v)
  {
    hide Distinct, Insert, RemoveAt, InsertPos, IndexOf, Worse, Evict, FreeCpu, FreePlace, Sorted;
    BetterLeftAlone(s, p);
    NoPlaceNoCpu(s, p);
    KeptQueue(s);
    VictimIs(s, |s.queue|, p);
    LastIsOne(s, p, v, Victim(s, |s.queue|, s.procs[p]));
    EvictReplaces(s, p, v);
    hide LastReplaceable, Replaceable, LeftAlone, QueueKept, CpusKept, PinsKept;
    s2 := Evict(BecomeReady(s, p), v, p);
    assert MakeRunnable(s, p) == MakeRunnable(s2, v);
    BetterLeftAlone(s2, v);
    StillRuns(s2, MakeRunnable(s2, v), v, p);
  }

  lemma StillRuns(s2: State, s': State, v: Pid, p: Pid)
    requires LeftAlone(s2, s', v) && NoWorse(s2, v, p) && Is(s2, p, RunningState) && Kept(s')
    ensures RunsOn(s', p, s2.procs[p].cpu)
  {
    hide QueueKept, PinsKept, Sorted;
  }

  lemma LastIsOne(s: State, p: Pid, v: Pid, w: Option<Pid>)
    requires p in s.procs && LastReplaceable(s, p, v)
    requires w.None? ==> forall x :: !LastReplaceable(s, p, x)
    requires w.Some? ==> LastReplaceable(s, p, w.value)
    ensures w == Some(v)
  {
  }

  lemma NoPlaceNoCpu(s: State, p: Pid)
    requires Kept(s) && Is(s, p, InvalidState) && forall c :: !FreePlace(s, p, c)
    ensures Kept(BecomeReady(s, p)) && FreeCpu(BecomeReady(s, p), s.procs[p]).None?
  {
    hide Insert, InsertPos, Distinct, Sorted, FreeCpu, FreePlace;
    QueueInsertKept(s, p);
    BecomeReadyOnly(s, p);
    var s1 := BecomeReady(s, p);
    FreeCpuIs(s1, p);
    SameFreeCpu(s1, s.procs[p], s1.procs[p]);
  }

  /** Nobody to replace either: p waits, with the processor of its choice as before, and nothing else changes. */
  lemma WaitsItsTurn(s: State, p: Pid)
    requires Kept(s) && Is(s, p, InvalidState) && (forall c :: !FreePlace(s, p, c)) && forall v :: !LastReplaceable(s, p, v)
    ensures Waited(s, MakeRunnable(s, p), p)
  {
    hide Distinct, Insert, InsertPos, Worse, Evict, FreeCpu, FreePlace, Sorted, LastReplaceable, Replaceable;
    NoPlaceNoCpu(s, p);
    KeptQueue(s);
    NoneReplaceable(s, p);
    BecomeReadyOnly(s, p);
    hide Waited, QueueKept, CpusKept, PinsKept;
    assert MakeRunnable(s, p) == BecomeReady(s, p);
  }

  lemma NoneReplaceable(s: State, p: Pid)
    requires Kept(s) && p in s.procs && forall v :: !LastReplaceable(s, p, v)
    ensures Known(s, |s.queue|) && Victim(s, |s.queue|, s.procs[p]).None?
  {
    KeptQueue(s);
    hide LastReplaceable, Replaceable, Sorted, CpusKept, PinsKept;
    VictimIs(s, |s.queue|, p);
  }
}
