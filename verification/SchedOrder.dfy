/**
 The order of the scheduler's queue: where a process enters it and where a new priority moves
 it, whom it swaps with then, and who gets the processor of one that leaves.
 */
module SchedOrder {
  import opened Options
  import opened Sched
  import opened SchedPrefix
  import opened SchedRenice
  import opened SchedPlaces

  // ---------- entering the queue ----------

  /** Position pos is the one behind everybody no worse than `prio`. */
  ghost predicate EndOfGroup(s: State, pos: int, prio: int) {
    && 0 <= pos <= |s.queue|
    && (forall i | 0 <= i < pos :: Prio(s.procs, s.queue[i]) <= prio)
    && (forall i | pos <= i < |s.queue| :: Prio(s.procs, s.queue[i]) > prio)
  }

  lemma InsertPosIs(s: State, prio: int)
    requires Known(s, |s.queue|) && Sorted(s.procs, s.queue)
    ensures EndOfGroup(s, InsertPos(s, |s.queue|, prio), prio)
  {
    hide Sorted;
    var pos := InsertPos(s, |s.queue|, prio);
    forall i | 0 <= i < pos ensures Prio(s.procs, s.queue[i]) <= prio { SortedAt(s, i, pos - 1); }
  }

  lemma InsertIs(q: seq<Pid>, pos: nat, p: Pid)
    requires pos <= |q|
    ensures Insert(q, pos, p) == q[..pos] + [p] + q[pos..]
  {
  }

  lemma RemoveIs(q: seq<Pid>, k: nat)
    requires k < |q|
    ensures RemoveAt(q, k) == q[..k] + q[k + 1..]
  {
  }

  /** In front of pos and at it, the queue is the old one and p behind it. */
  ghost predicate Joined(s: State, q': seq<Pid>, p: Pid, pos: int)
    requires 0 <= pos <= |s.queue|
  {
    pos < |q'| && q'[..pos + 1] == s.queue[..pos] + [p]
  }

  lemma QuietJoins(s: State, p: Pid)
    requires Kept(s) && Is(s, p, InvalidState)
    requires FreeCpu(BecomeReady(s, p), s.procs[p]).Some? || Victim(s, |s.queue|, s.procs[p]).None?
    ensures var pos := InsertPos(s, |s.queue|, s.procs[p].prio);
      && MakeRunnable(s, p).queue == s.queue[..pos] + [p] + s.queue[pos..]
      && Joined(s, MakeRunnable(s, p).queue, p, pos)
  {
    hide Insert, Sorted, Distinct, QueueKept;
    QueueInsertKept(s, p);
    KeptQueue(s);
    InsertIs(s.queue, InsertPos(s, |s.queue|, s.procs[p].prio), p);
  }

  /** The process v, at k and worse than p, has left its place. */
  lemma EvictedJoins(s: State, p: Pid, v: Pid)
    requires Kept(s) && Is(s, p, InvalidState) && v in s.queue && Evictable(s, v, s.procs[p])
    requires s.procs[v].prio > s.procs[p].prio
    ensures Known(s, |s.queue|) && Joined(s, MadeRoom(s, p, v).queue, p, InsertPos(s, |s.queue|, s.procs[p].prio))
  {
    hide Insert, InsertPos, RemoveAt, Evict, Kept, EndOfGroup, Distinct, Sorted;
    EvictionKept(s, p, v);
    KeptQueue(s);
    InsertPosIs(s, s.procs[p].prio);
    var k := PlaceBehind(s, InsertPos(s, |s.queue|, s.procs[p].prio), s.procs[p].prio, v);
    EvictQueue(s, p, v, k);
    RemovedBehind(s.queue, InsertPos(s, |s.queue|, s.procs[p].prio), k, p);
  }

  lemma PlaceBehind(s: State, pos: int, prio: int, v: Pid) returns (k: nat)
    requires EndOfGroup(s, pos, prio) && v in s.queue && Prio(s.procs, v) > prio
    ensures pos <= k < |s.queue| && s.queue[k] == v
  {
    k := IndexOf(s.queue, v);
  }

  lemma RemovedBehind(q: seq<Pid>, pos: nat, k: nat, p: Pid)
    requires pos <= k < |q|
    ensures |Insert(q, pos, p)| == |q| + 1
    ensures RemoveAt(Insert(q, pos, p), k + 1) == q[..pos] + [p] + q[pos..k] + q[k + 1..]
  {
    InsertIs(q, pos, p);
    RemoveIs(Insert(q, pos, p), k + 1);
    hide *;
    TakenOut(q, pos, k, p);
  }

  lemma TakenOut(q: seq<Pid>, pos: nat, k: nat, p: Pid)
    requires pos <= k < |q|
    ensures var q1 := q[..pos] + [p] + q[pos..]; q1[..k + 1] + q1[k + 2..] == q[..pos] + [p] + q[pos..k] + q[k + 1..]
  {
    var q1 := q[..pos] + [p] + q[pos..];
    assert q1[..k + 1] == q[..pos] + [p] + q[pos..k];
    assert q1[k + 2..] == q[k + 1..];
  }

  lemma JoinedThrough(s: State, s2: State, q': seq<Pid>, p: Pid, v: Pid, pos: int, pos2: int)
    requires 0 <= pos <= |s.queue| && Joined(s, s2.queue, p, pos)
    requires EndOfGroup(s2, pos2, Prio(s2.procs, v)) && Prio(s2.procs, p) < Prio(s2.procs, v)
    requires Joined(s2, q', v, pos2)
    ensures Joined(s, q', p, pos)
  {
    assert s2.queue[pos] == s2.queue[..pos + 1][pos] == p;
    assert pos < pos2;
    assert q'[..pos + 1] == q'[..pos2 + 1][..pos + 1] == s2.queue[..pos2][..pos + 1] == s2.queue[..pos + 1];
  }

  /** However far evictions spread, p enters the queue behind all that are no worse, whose order stays, and in front of
      all that are worse. */
  lemma {:induction false} JoinsBehindGroup(s: State, p: Pid) returns (pos: nat)
    requires Kept(s) && Is(s, p, InvalidState)
    ensures EndOfGroup(s, pos, s.procs[p].prio) && Joined(s, MakeRunnable(s, p).queue, p, pos)
    decreases |Worse(s, s.procs[p].prio)|
  {
    hide MakeRunnable, BecomeReady, Kept, Worse, Victim, FreeCpu, EndOfGroup, Joined, InsertPos, Sorted;
    KeptQueue(s);
    pos := InsertPos(s, |s.queue|, s.procs[p].prio);
    InsertPosIs(s, s.procs[p].prio);
    var v, s2 := EvictsOrNot(s, p);
    if v.None? {
      QuietJoins(s, p);
    } else {
      EvictedJoins(s, p, v.value);
      var pos2 := JoinsBehindGroup(s2, v.value);
      JoinedThrough(s, s2, MakeRunnable(s2, v.value).queue, p, v.value, pos, pos2);
    }
  }

  /** Where p evicts nobody, all the others stay in the queue, in order. */
  lemma EntersInOrder(s: State, p: Pid) returns (pos: nat)
    requires Kept(s) && Is(s, p, InvalidState)
    requires (exists c :: FreePlace(s, p, c)) || forall v :: !LastReplaceable(s, p, v)
    ensures EndOfGroup(s, pos, s.procs[p].prio) && MakeRunnable(s, p).queue == s.queue[..pos] + [p] + s.queue[pos..]
  {
    hide MakeRunnable, BecomeReady, Kept, Victim, FreeCpu, EndOfGroup, InsertPos, Sorted, FreePlace, LastReplaceable;
    KeptQueue(s);
    pos := InsertPos(s, |s.queue|, s.procs[p].prio);
    InsertPosIs(s, s.procs[p].prio);
    FindsPlaceOrNobody(s, p);
    QuietJoins(s, p);
  }

  lemma FindsPlaceOrNobody(s: State, p: Pid)
    requires Kept(s) && Is(s, p, InvalidState)
    requires (exists c :: FreePlace(s, p, c)) || forall v :: !LastReplaceable(s, p, v)
    ensures Kept(BecomeReady(s, p)) && Known(s, |s.queue|)
    ensures FreeCpu(BecomeReady(s, p), s.procs[p]).Some? || Victim(s, |s.queue|, s.procs[p]).None?
  {
    hide Insert, InsertPos, Victim, Distinct, Sorted, FreeCpu, FreePlace, LastReplaceable;
    QueueInsertKept(s, p);
    KeptQueue(s);
    BecomeReadyOnly(s, p);
    var s1 := BecomeReady(s, p);
    FreeCpuIs(s1, p);
    SameFreeCpu(s1, s.procs[p], s1.procs[p]);
    hide BecomeReady, QueueKept, CpusKept, PinsKept;
    if forall v :: !LastReplaceable(s, p, v) { NoneReplaceable(s, p); }
  }

  // ---------- leaving it ----------

  /** The process at i is ready and may use processor c. */
  ghost predicate WaitsFor(s: State, i: int, c: int)
    requires 0 <= i < |s.queue|
  {
    var x := s.queue[i];
    Is(s, x, ReadyState) && (!s.procs[x].pinned || s.procs[x].cpu == c)
  }

  /** x is the first in the queue that waits for processor c. */
  ghost predicate FirstWaiting(s: State, x: Pid, c: int) {
    exists i :: 0 <= i < |s.queue| && s.queue[i] == x && WaitsFor(s, i, c) && forall j | 0 <= j < i :: !WaitsFor(s, j, c)
  }

  lemma {:induction false} QueueGetIs(s: State, c: int, n: nat)
    requires Known(s, |s.queue|) && n <= |s.queue| && forall j | 0 <= j < n :: !WaitsFor(s, j, c)
    ensures var x := QueueGet(s, c, n);
      && (x.Some? ==> FirstWaiting(s, x.value, c))
      && (x.None? ==> forall w :: !FirstWaiting(s, w, c))
    decreases |s.queue| - n
  {
    if n < |s.queue| && !WaitsFor(s, n, c) { QueueGetIs(s, c, n + 1); }
  }

  lemma FirstWaitingIsOne(s: State, x: Pid, y: Option<Pid>, c: int)
    requires FirstWaiting(s, x, c)
    requires y.None? ==> forall w :: !FirstWaiting(s, w, c)
    requires y.Some? ==> FirstWaiting(s, y.value, c)
    ensures y == Some(x)
  {
  }

  /** Who waits first does not change when p, who does not wait, leaves the queue. */
  lemma FirstWithout(s: State, s2: State, k: nat, x: Pid, c: int)
    requires k < |s.queue| && s2.queue == s.queue[..k] + s.queue[k + 1..] && !Is(s, s.queue[k], ReadyState)
    requires forall w | w in s2.queue :: w in s.procs && w in s2.procs && s2.procs[w] == s.procs[w]
    requires FirstWaiting(s, x, c)
    ensures FirstWaiting(s2, x, c)
  {
    var i :| 0 <= i < |s.queue| && s.queue[i] == x && WaitsFor(s, i, c) && forall j | 0 <= j < i :: !WaitsFor(s, j, c);
    var i2 := if i < k then i else i - 1;
    assert s2.queue[i2] == x && x in s2.queue && WaitsFor(s2, i2, c);
    forall j | 0 <= j < i2 ensures !WaitsFor(s2, j, c) {
      assert s2.queue[j] in s2.queue && s2.queue[j] == s.queue[if j < k then j else j + 1];
      assert !WaitsFor(s, if j < k then j else j + 1, c);
    }
  }

  lemma FirstWithin(s: State, s2: State, k: nat, x: Pid, c: int)
    requires k < |s.queue| && s2.queue == s.queue[..k] + s.queue[k + 1..] && !Is(s, s.queue[k], ReadyState)
    requires forall w | w in s2.queue :: w in s.procs && w in s2.procs && s2.procs[w] == s.procs[w]
    requires FirstWaiting(s2, x, c)
    ensures FirstWaiting(s, x, c)
  {
    var i :| 0 <= i < |s2.queue| && s2.queue[i] == x && WaitsFor(s2, i, c) && forall j | 0 <= j < i :: !WaitsFor(s2, j, c);
    var i1 := if i < k then i else i + 1;
    assert x in s2.queue && s.queue[i1] == x && WaitsFor(s, i1, c);
    forall j | 0 <= j < i1 ensures !WaitsFor(s, j, c) {
      if j != k {
        var j2 := if j < k then j else j - 1;
        assert s2.queue[j2] in s2.queue && s2.queue[j2] == s.queue[j];
        assert !WaitsFor(s2, j2, c);
      }
    }
  }

  /** p has left, keeping everything but its state; the others keep their order. */
  ghost predicate LeftQueue(s: State, s': State, p: Pid) {
    && p in s.procs && p in s'.procs && s'.procs[p] == s.procs[p].(state := InvalidState)
    && exists k :: 0 <= k < |s.queue| && s.queue[k] == p && s'.queue == s.queue[..k] + s.queue[k + 1..]
  }

  /** A process that waits leaves, and nothing else changes. */
  lemma WaitingLeaves(s: State, p: Pid)
    requires Kept(s) && Is(s, p, ReadyState)
    ensures var s' := MakeNonRunnable(s, p); LeftQueue(s, s', p) && OnlyChanged(s, s', {p}) && s'.flows == s.flows
  {
    hide RemoveAt, Distinct, Sorted;
    QueueRemoveKept(s, p);
    RemoveIs(s.queue, IndexOf(s.queue, p));
  }

  /** p's processor as p leaves it: p out of the queue, nobody on the processor. */
  function Vacated(s: State, p: Pid): State
    requires Is(s, p, RunningState) && 0 <= s.procs[p].cpu < |s.flows| && p in s.queue
  {
    BecomeNonReady(SwitchOut(s, s.procs[p].cpu, p), p)
  }

  lemma VacatedIs(s: State, p: Pid)
    requires Kept(s) && Is(s, p, RunningState)
    ensures 0 <= s.procs[p].cpu < |s.flows| && p in s.queue
    ensures var s2 := Vacated(s, p);
      && Kept(s2) && Known(s2, |s2.queue|) && LeftQueue(s, s2, p) && OnlyChanged(s, s2, {p})
      && s2.flows == s.flows[s.procs[p].cpu := None] && p !in s2.queue
      && MakeNonRunnable(s, p) ==
           match QueueGet(s2, s.procs[p].cpu, 0)
           case None => s2
           case Some(x) => SwitchIn(s2, s.procs[p].cpu, x)
  {
    hide RemoveAt, Distinct, Sorted, QueueGet;
    SwitchOutKept(s, p);
    var s1 := SwitchOut(s, s.procs[p].cpu, p);
    QueueRemoveKept(s1, p);
    KeptQueue(Vacated(s, p));
    RemoveIs(s.queue, IndexOf(s.queue, p));
  }

  lemma FirstUnchanged(s: State, p: Pid, x: Pid, c: int)
    requires Kept(s) && Is(s, p, RunningState)
    ensures 0 <= s.procs[p].cpu < |s.flows| && p in s.queue
    ensures FirstWaiting(s, x, c) <==> FirstWaiting(Vacated(s, p), x, c)
  {
    hide FirstWaiting, Vacated, Sorted, Distinct, CpusKept, PinsKept;
    VacatedIs(s, p);
    KeptQueue(Vacated(s, p));
    var k :| 0 <= k < |s.queue| && s.queue[k] == p && Vacated(s, p).queue == s.queue[..k] + s.queue[k + 1..];
    if FirstWaiting(s, x, c) { FirstWithout(s, Vacated(s, p), k, x, c); }
    if FirstWaiting(Vacated(s, p), x, c) { FirstWithin(s, Vacated(s, p), k, x, c); }
  }

  /** A running process leaves: the first in the queue that waits for its processor gets it, and nobody else changes. */
  lemma HandsOn(s: State, p: Pid, x: Pid)
    requires Kept(s) && Is(s, p, RunningState) && FirstWaiting(s, x, s.procs[p].cpu)
    ensures var c := s.procs[p].cpu; var s' := MakeNonRunnable(s, p);
      && LeftQueue(s, s', p) && RunsOn(s', x, c) && OnlyChanged(s, s', {p, x}) && s'.flows == s.flows[c := Some(x)]
  {
    hide FirstWaiting, Vacated, Kept, QueueGet, Sorted;
    var c := s.procs[p].cpu;
    VacatedIs(s, p);
    FirstUnchanged(s, p, x, c);
    FoundFirst(Vacated(s, p), x, c);
    TakesVacated(s, Vacated(s, p), p, x, c);
  }

  lemma FoundFirst(s2: State, x: Pid, c: int)
    requires Known(s2, |s2.queue|) && FirstWaiting(s2, x, c)
    ensures QueueGet(s2, c, 0) == Some(x)
  {
    hide FirstWaiting;
    QueueGetIs(s2, c, 0);
    FirstWaitingIsOne(s2, x, QueueGet(s2, c, 0), c);
  }

  lemma TakesVacated(s: State, s2: State, p: Pid, x: Pid, c: int)
    requires LeftQueue(s, s2, p) && OnlyChanged(s, s2, {p}) && Is(s2, x, ReadyState) && s2.procs[x].MayUse(c)
    requires 0 <= c < |s.flows| && s2.flows == s.flows[c := None]
    ensures var s' := SwitchIn(s2, c, x);
      LeftQueue(s, s', p) && RunsOn(s', x, c) && OnlyChanged(s, s', {p, x}) && s'.flows == s.flows[c := Some(x)]
  {
    assert x != p;
    assert SwitchIn(s2, c, x).queue == s2.queue;
  }

  /** Nobody waits for it: it stays idle. */
  lemma LeavesIdle(s: State, p: Pid)
    requires Kept(s) && Is(s, p, RunningState) && forall x :: !FirstWaiting(s, x, s.procs[p].cpu)
    ensures var c := s.procs[p].cpu; var s' := MakeNonRunnable(s, p);
      0 <= c < |s.flows| && LeftQueue(s, s', p) && OnlyChanged(s, s', {p}) && s'.flows == s.flows[c := None]
  {
    hide FirstWaiting, Vacated, Kept, QueueGet, Sorted;
    var c := s.procs[p].cpu;
    VacatedIs(s, p);
    QueueGetIs(Vacated(s, p), c, 0);
    var x := QueueGet(Vacated(s, p), c, 0);
    if x.Some? { FirstUnchanged(s, p, x.value, c); }
  }

  // ---------- a new priority ----------

  /** The entry at k of q is the one at pos of q', and the others are in the same order. */
  ghost predicate MovedTo(q: seq<Pid>, q': seq<Pid>, k: int, pos: int) {
    && 0 <= k < |q| && 0 <= pos < |q'| && q[k] == q'[pos]
    && q[..k] + q[k + 1..] == q'[..pos] + q'[pos + 1..]
  }

  lemma MoveIs(q: seq<Pid>, k: nat, pos: nat)
    requires k < |q| && pos < |q|
    ensures MovedTo(q, Move(q, k, pos), k, pos)
  {
    hide RemoveAt;
    RemoveIs(q, k);
    InsertIs(q[..k] + q[k + 1..], pos, q[k]);
    hide *;
    var r := q[..k] + q[k + 1..];
    var q' := r[..pos] + [q[k]] + r[pos..];
    assert q'[..pos] == r[..pos] && q'[pos + 1..] == r[pos..];
  }

  /** In the new queue, p is behind all that are no worse than its new priority and in front of all that are worse. */
  ghost predicate LastOfGroup(s': State, pos: int, prio: int) {
    && 0 <= pos < |s'.queue|
    && (forall i | 0 <= i < pos :: Prio(s'.procs, s'.queue[i]) <= prio)
    && (forall i | pos < i < |s'.queue| :: Prio(s'.procs, s'.queue[i]) > prio)
  }

  lemma BehindIsWorse(s': State, pos: nat, prio: int)
    requires Sorted(s'.procs, s'.queue) && pos < |s'.queue| && Prio(s'.procs, s'.queue[pos]) == prio
    requires pos + 1 < |s'.queue| ==> Prio(s'.procs, s'.queue[pos + 1]) > prio
    ensures LastOfGroup(s', pos, prio)
  {
    hide Sorted;
    forall i | 0 <= i < |s'.queue|
      ensures i < pos ==> Prio(s'.procs, s'.queue[i]) <= prio
      ensures i > pos ==> Prio(s'.procs, s'.queue[i]) > prio
    {
      if i < pos { SortedAt(s', i, pos); }
      if i > pos { SortedAt(s', pos + 1, i); }
    }
  }

  lemma PromotedPlace(s: State, p: Pid, prio: int, k: nat)
    requires Kept(s) && p in s.procs && s.procs[p].state.Runnable() && prio < s.procs[p].prio
    requires p in s.queue && k == IndexOf(s.queue, p) && Known(WithPrio(s, p, prio), k)
    ensures var s1 := Reprioritize(s, p, prio).0; var pos := InsertPos(WithPrio(s, p, prio), k, prio);
      MovedTo(s.queue, s1.queue, k, pos) && LastOfGroup(s1, pos, prio)
  {
    hide Move, MovedTo, LastOfGroup, Sorted, Distinct, CpusKept, PinsKept, Victim;
    var s1 := Reprioritize(s, p, prio).0;
    var pos := InsertPos(WithPrio(s, p, prio), k, prio);
    MoveIs(s.queue, k, pos);
    WithPrioKnown(s, p, prio);
    ReprioritizeKept(s, p, prio);
    NextBehind(s.queue, s1.queue, k, pos);
    if k + 1 < |s.queue| { SortedAt(s, k, k + 1); }
    KeptQueue(s);
    DistinctAt(s.queue, k);
    BehindIsWorse(s1, pos, prio);
  }

  lemma DistinctAt(q: seq<Pid>, k: nat)
    requires Distinct(q) && k < |q|
    ensures forall i | 0 <= i < |q| && i != k :: q[i] != q[k]
  {
  }

  /** Who comes right behind the place moved to. */
  lemma NextBehind(q: seq<Pid>, q': seq<Pid>, k: nat, pos: nat)
    requires MovedTo(q, q', k, pos)
    ensures |q'| == |q| && q'[pos] == q[k]
    ensures pos + 1 < |q'| ==> q'[pos + 1] == q[if pos < k then pos else pos + 1]
  {
    var r := q[..k] + q[k + 1..];
    assert |r| == |q| - 1;
    assert pos + 1 < |q'| ==> q'[pos + 1] == (q'[..pos] + q'[pos + 1..])[pos] == r[pos];
  }

  lemma RepositionedProcs(s: State, p: Pid, prio: int)
    requires Kept(s) && p in s.procs && s.procs[p].state.Runnable()
    ensures Reprioritize(s, p, prio).0.procs == WithPrio(s, p, prio).procs
  {
    hide Kept, Move, Victim, PassedReady, InsertPos, DemoteEnd, IndexOf;
  }

  lemma DemotedPlace(s: State, p: Pid, prio: int, k: nat)
    requires Kept(s) && p in s.procs && s.procs[p].state.Runnable() && prio > s.procs[p].prio
    requires p in s.queue && k == IndexOf(s.queue, p) && Known(WithPrio(s, p, prio), |s.queue|)
    ensures var s1 := Reprioritize(s, p, prio).0; var pos := DemoteEnd(WithPrio(s, p, prio), k + 1, prio) - 1;
      MovedTo(s.queue, s1.queue, k, pos) && LastOfGroup(s1, pos, prio)
  {
    hide Move, MovedTo, LastOfGroup, Sorted, Distinct, CpusKept, PinsKept, QueueKept, Reprioritize, DemoteEnd, Prio, WithPrio;
    KeptQueue(s);
    SameQueue(s, p, prio);
    var s1 := Reprioritize(s, p, prio).0;
    RepositionedProcs(s, p, prio);
    DemotedQueue(s, p, prio, k, DemoteEnd(WithPrio(s, p, prio), k + 1, prio));
    var pos := DemoteEnd(WithPrio(s, p, prio), k + 1, prio) - 1;
    MoveIs(s.queue, k, pos);
    WithPrioKnown(s, p, prio);
    DemoteEndPrio(WithPrio(s, p, prio), k + 1, prio);
    ReprioritizeKept(s, p, prio);
    NextBehind(s.queue, s1.queue, k, pos);
    BehindIsWorse(s1, pos, prio);
  }

  lemma SwapKeepsQueue(s: State, p: Pid, prio: int)
    requires Kept(s) && p in s.procs && prio != s.procs[p].prio
    ensures var s1 := Reprioritize(s, p, prio).0; var s' := SetPriority(s, p, prio);
      && s'.queue == s1.queue && forall x :: Prio(s'.procs, x) == Prio(s1.procs, x)
  {
    hide Sorted, Distinct, Move, Victim, PassedReady, InsertPos, DemoteEnd, IndexOf, QueueKept;
    ReprioritizeKept(s, p, prio);
  }

  /** A queued process with a new priority moves behind all that are no worse than that and in front of all that are
      worse; the others stay in order. */
  lemma RenicedPlace(s: State, p: Pid, prio: int) returns (k: nat, pos: nat)
    requires Kept(s) && p in s.procs && s.procs[p].state.Runnable() && prio != s.procs[p].prio
    ensures var s' := SetPriority(s, p, prio);
      MovedTo(s.queue, s'.queue, k, pos) && s.queue[k] == p && LastOfGroup(s', pos, prio)
  {
    hide Sorted, Distinct, Reprioritize, SetPriority, CpusKept, PinsKept, QueueKept, InsertPos, DemoteEnd, MovedTo, LastOfGroup;
    KeptQueue(s);
    k := Place(s, p);
    k := IndexOf(s.queue, p);
    WithPrioKnown(s, p, prio);
    SwapKeepsQueue(s, p, prio);
    if prio < s.procs[p].prio {
      pos := InsertPos(WithPrio(s, p, prio), k, prio);
      PromotedPlace(s, p, prio, k);
    } else {
      pos := DemoteEnd(WithPrio(s, p, prio), k + 1, prio) - 1;
      DemotedPlace(s, p, prio, k);
    }
    SameGroup(Reprioritize(s, p, prio).0, SetPriority(s, p, prio), pos, prio);
  }

  lemma SameGroup(s1: State, s': State, pos: nat, prio: int)
    requires LastOfGroup(s1, pos, prio) && s'.queue == s1.queue && forall x :: Prio(s'.procs, x) == Prio(s1.procs, x)
    ensures LastOfGroup(s', pos, prio)
  {
    hide Prio;
  }

  // ---------- whom it swaps with ----------

  /** The process at i runs where p may, and is worse than p's new priority. */
  ghost predicate GivesWay(s: State, p: Pid, prio: int, i: int)
    requires p in s.procs && 0 <= i < |s.queue|
  {
    var w := s.queue[i];
    && Is(s, w, RunningState) && s.procs[w].prio > prio
    && (!s.procs[p].pinned || s.procs[p].cpu == s.procs[w].cpu)
  }

  /** v is the last in front of p that gives way. */
  ghost predicate LastToGiveWay(s: State, p: Pid, prio: int, v: Pid)
    requires p in s.procs
  {
    exists i, k :: 0 <= i < k < |s.queue| && s.queue[i] == v && s.queue[k] == p && GivesWay(s, p, prio, i)
      && forall j | i < j < k :: !GivesWay(s, p, prio, j)
  }

  /** x is the first behind p, and no worse than its new priority, that waits for its processor. */
  ghost predicate FirstToPass(s: State, p: Pid, prio: int, x: Pid)
    requires p in s.procs
  {
    exists k, i :: 0 <= k < i < |s.queue| && s.queue[k] == p && s.queue[i] == x
      && WaitsFor(s, i, s.procs[p].cpu) && s.procs[x].prio <= prio
      && forall j | k < j < i :: !WaitsFor(s, j, s.procs[p].cpu)
  }

  lemma GivesWayAt(s: State, p: Pid, prio: int, k: nat, i: nat)
    requires QueueKept(s) && i < k < |s.queue| && s.queue[k] == p && p in s.procs
    ensures var s0 := WithPrio(s, p, prio); var w := s.queue[i];
      && w in s0.procs && s0.procs[w] == s.procs[w]
      && (GivesWay(s, p, prio, i) <==> Evictable(s0, w, s0.procs[p]) && s0.procs[w].prio > prio)
  {
  }

  lemma NoneInFront(s: State, p: Pid, prio: int, n: nat, i: nat)
    requires QueueKept(s) && Sorted(s.procs, s.queue) && i < n <= |s.queue| && p in s.procs
    requires s.procs[s.queue[n - 1]].prio <= prio
    ensures !GivesWay(s, p, prio, i)
  {
    hide Distinct;
    SortedAt(s, i, n - 1);
  }

  lemma {:induction false} GivesWayFound(s: State, p: Pid, prio: int, k: nat, n: nat)
    requires QueueKept(s) && Sorted(s.procs, s.queue) && p in s.procs && n <= k < |s.queue| && s.queue[k] == p
    requires Known(WithPrio(s, p, prio), n) && forall j | n <= j < k :: !GivesWay(s, p, prio, j)
    ensures var v := Victim(WithPrio(s, p, prio), n, WithPrio(s, p, prio).procs[p]);
      && (v.Some? ==> LastToGiveWay(s, p, prio, v.value))
      && (v.None? ==> forall j | 0 <= j < k :: !GivesWay(s, p, prio, j))
    decreases n
  {
    hide Sorted, Distinct, GivesWay, QueueKept;
    if n > 0 {
      GivesWayAt(s, p, prio, k, n - 1);
      if s.procs[s.queue[n - 1]].prio <= prio {
        forall i | 0 <= i < n ensures !GivesWay(s, p, prio, i) { NoneInFront(s, p, prio, n, i); }
      } else if !GivesWay(s, p, prio, n - 1) {
        GivesWayFound(s, p, prio, k, n - 1);
      }
    }
  }

  lemma LastToGiveWayIsOne(s: State, p: Pid, prio: int, v: Pid, k: nat, w: Option<Pid>)
    requires Distinct(s.queue) && p in s.procs && k < |s.queue| && s.queue[k] == p && LastToGiveWay(s, p, prio, v)
    requires w.None? ==> forall j | 0 <= j < k :: !GivesWay(s, p, prio, j)
    requires w.Some? ==> LastToGiveWay(s, p, prio, w.value)
    ensures w == Some(v)
  {
    hide GivesWay;
  }

  lemma PromotionFinds(s: State, p: Pid, prio: int) returns (k: nat)
    requires Kept(s) && Is(s, p, ReadyState) && prio < s.procs[p].prio
    ensures k < |s.queue| && s.queue[k] == p
    ensures var v := Reprioritize(s, p, prio).1;
      && (v.Some? ==> LastToGiveWay(s, p, prio, v.value))
      && (v.None? ==> forall j | 0 <= j < k :: !GivesWay(s, p, prio, j))
  {
    hide Sorted, Distinct, GivesWay, LastToGiveWay, CpusKept, PinsKept, Move, InsertPos;
    KeptQueue(s);
    k := IndexOf(s.queue, p);
    WithPrioKnown(s, p, prio);
    GivesWayFound(s, p, prio, k, k);
  }

  /** A ready process made better takes the processor of the last in front of it that gives way: that one becomes ready
      again, and nobody else changes. */
  lemma PromotionTakes(s: State, p: Pid, prio: int, v: Pid)
    requires Kept(s) && Is(s, p, ReadyState) && prio < s.procs[p].prio && LastToGiveWay(s, p, prio, v)
    ensures v in s.procs && Swapped(s, SetPriority(s, p, prio), p, v, s.procs[v].cpu, prio, s.procs[v].prio)
  {
    hide LastToGiveWay, Reprioritize, SetPriority, Swapped, QueueKept, CpusKept, PinsKept, Sorted;
    KeptQueue(s);
    var k := PromotionFinds(s, p, prio);
    LastToGiveWayIsOne(s, p, prio, v, k, Reprioritize(s, p, prio).1);
    Promotes(s, p, prio);
  }

  /** A running process made worse leaves its processor to the first one behind it, no worse than its new priority, that
      waits for it, and becomes ready; nobody else changes. */
  lemma DemotionGives(s: State, p: Pid, prio: int, x: Pid)
    requires Kept(s) && Is(s, p, RunningState) && prio > s.procs[p].prio && FirstToPass(s, p, prio, x)
    ensures x in s.procs && Swapped(s, SetPriority(s, p, prio), x, p, s.procs[p].cpu, s.procs[x].prio, prio)
  {
    hide FirstToPass, Reprioritize, SetPriority, Swapped, QueueKept, CpusKept, PinsKept, Sorted;
    KeptQueue(s);
    DemotionFinds(s, p, prio);
    var w := Reprioritize(s, p, prio).1;
    if w.Some? {
      FirstToPassIsOne(s, p, prio, x, w.value);
      Demotes(s, p, prio);
    }
  }

  lemma FirstToPassIsOne(s: State, p: Pid, prio: int, x: Pid, y: Pid)
    requires Distinct(s.queue) && p in s.procs && FirstToPass(s, p, prio, x) && FirstToPass(s, p, prio, y)
    ensures x == y
  {
    hide WaitsFor;
  }

  /** The scan of a demotion stays with those no worse than the new priority, and passes them all. */
  lemma PassedAre(s: State, p: Pid, prio: int, k: nat, i: nat)
    requires QueueKept(s) && Sorted(s.procs, s.queue) && p in s.procs && k < i < |s.queue| && s.queue[k] == p
    requires Known(WithPrio(s, p, prio), |s.queue|)
    ensures i < DemoteEnd(WithPrio(s, p, prio), k + 1, prio) <==> Prio(s.procs, s.queue[i]) <= prio
  {
    hide Sorted, Distinct, DemoteEnd, Prio, WithPrio, Known;
    WithPrioKnown(s, p, prio);
    SameQueue(s, p, prio);
    var s0 := WithPrio(s, p, prio);
    var e := DemoteEnd(s0, k + 1, prio);
    DemoteEndPrio(s0, k + 1, prio);
    DistinctAt(s.queue, k);
    if i < e { SortedAt(s, i, e - 1); } else { SortedAt(s, e, i); }
  }

  lemma SameQueue(s: State, p: Pid, prio: int)
    requires p in s.procs
    ensures WithPrio(s, p, prio).queue == s.queue
  {
  }

  lemma SameWaits(s: State, p: Pid, prio: int, k: nat, i: nat)
    requires QueueKept(s) && p in s.procs && k < i < |s.queue| && s.queue[k] == p
    ensures var s0 := WithPrio(s, p, prio);
      && s.queue[i] in s0.procs && s0.procs[s.queue[i]] == s.procs[s.queue[i]]
      && (WaitsFor(s, i, s.procs[p].cpu) <==> Is(s0, s.queue[i], ReadyState) && s0.procs[s.queue[i]].MayUse(s.procs[p].cpu))
  {
  }

  lemma DemotionAsks(s: State, p: Pid, prio: int) returns (k: nat)
    requires Kept(s) && Is(s, p, RunningState) && prio > s.procs[p].prio
    ensures k < |s.queue| && s.queue[k] == p && Known(WithPrio(s, p, prio), |s.queue|)
    ensures Reprioritize(s, p, prio).1 ==
      PassedReady(WithPrio(s, p, prio), k + 1, DemoteEnd(WithPrio(s, p, prio), k + 1, prio), s.procs[p].cpu)
  {
    hide Sorted, Distinct, CpusKept, PinsKept, Move, InsertPos, DemoteEnd, PassedReady;
    WithPrioKnown(s, p, prio);
    k := IndexOf(s.queue, p);
  }

  lemma DemotionFinds(s: State, p: Pid, prio: int)
    requires Kept(s) && Is(s, p, RunningState) && prio > s.procs[p].prio
    ensures var x := Reprioritize(s, p, prio).1;
      && (x.Some? ==> FirstToPass(s, p, prio, x.value))
      && (x.None? ==> forall y :: !FirstToPass(s, p, prio, y))
  {
    hide Sorted, Distinct, CpusKept, PinsKept, Reprioritize, DemoteEnd, PassedReady, QueueKept, WaitsFor, FirstToPass, Known;
    KeptQueue(s);
    var k := DemotionAsks(s, p, prio);
    var c, s0 := s.procs[p].cpu, WithPrio(s, p, prio);
    var e := DemoteEnd(s0, k + 1, prio);
    var j := PassedFirst(s0, k + 1, e, c);
    forall i | k < i < |s.queue| ensures i < e <==> Prio(s.procs, s.queue[i]) <= prio
      ensures s.queue[i] in s0.procs
      ensures WaitsFor(s, i, c) <==> Is(s0, s.queue[i], ReadyState) && s0.procs[s.queue[i]].MayUse(c)
    {
      PassedAre(s, p, prio, k, i);
      SameWaits(s, p, prio, k, i);
    }
    if j < e { FoundWaits(s0, k + 1, e, c, j); }
    PassedIsFirst(s, p, prio, k, e, j);
  }

  lemma FoundWaits(s: State, n: nat, e: nat, c: int, j: nat)
    requires Known(s, |s.queue|) && n <= j < e <= |s.queue| && PassedReady(s, n, e, c) == Some(s.queue[j])
    ensures Is(s, s.queue[j], ReadyState) && s.procs[s.queue[j]].MayUse(c)
  {
  }

  lemma PassedIsFirst(s: State, p: Pid, prio: int, k: nat, e: nat, j: nat)
    requires Distinct(s.queue) && p in s.procs && k < j <= e <= |s.queue| && s.queue[k] == p
    requires forall i | k < i < |s.queue| :: i < e <==> Prio(s.procs, s.queue[i]) <= prio
    requires forall i | k < i < j :: !WaitsFor(s, i, s.procs[p].cpu)
    requires j < e ==> WaitsFor(s, j, s.procs[p].cpu)
    ensures j < e ==> FirstToPass(s, p, prio, s.queue[j])
    ensures j == e ==> forall y :: !FirstToPass(s, p, prio, y)
  {
  }

  /** With nobody to swap with, a new priority changes nobody's state. */
  lemma NobodySwaps(s: State, p: Pid, prio: int)
    requires Kept(s) && p in s.procs
    requires Is(s, p, ReadyState) && prio < s.procs[p].prio ==> forall v :: !LastToGiveWay(s, p, prio, v)
    requires Is(s, p, RunningState) && prio > s.procs[p].prio ==> forall x :: !FirstToPass(s, p, prio, x)
    ensures var s' := SetPriority(s, p, prio);
      && s'.procs == s.procs[p := s.procs[p].(prio := prio)] && s'.flows == s.flows
      && (prio == s.procs[p].prio ==> s' == s)
  {
    hide LastToGiveWay, FirstToPass, Reprioritize, QueueKept, CpusKept, PinsKept, Sorted;
    if prio == s.procs[p].prio {
      assert SetPriority(s, p, prio) == s;
    } else {
      hide SetPriority;
      if Is(s, p, ReadyState) && prio < s.procs[p].prio { var k := PromotionFinds(s, p, prio); }
      if Is(s, p, RunningState) && prio > s.procs[p].prio { DemotionFinds(s, p, prio); }
      KeepsPlace(s, p, prio);
    }
  }
}
