/**
 The preemptive priority scheduler: processes, the priority queue, the processors
 (one flow each) and what each scheduling operation does to them.
 */
module Sched {
  import opened Options
  import opened Pigeonhole

  type Pid = nat

  datatype RunState = InvalidState | RunningState | ReadyState | SuspendedState | WaitingState {
    predicate Runnable() { RunningState? || ReadyState? }
  }

  /** Lower priority numbers are better. A process without a processor of choice has cpu -1. */
  datatype Proc = Proc(state: RunState, prio: int, cpu: int, migrable: bool, pinned: bool, suspended: int) {
    predicate MayUse(c: int) { !pinned || cpu == c }
  }

  /** `flows` says which process each processor runs, `avail` is the set of available processors, and `order`
      lists the processors in the order in which an available one is sought. */
  datatype State = State(procs: map<Pid, Proc>, queue: seq<Pid>, flows: seq<Option<Pid>>, avail: set<nat>, order: seq<nat>)

  predicate Is(s: State, p: Pid, st: RunState) {
    p in s.procs && s.procs[p].state == st
  }

  // ---------- what always holds ----------

  ghost predicate Distinct(q: seq<Pid>) {
    forall i, j | 0 <= i < j < |q| :: q[i] != q[j]
  }

  ghost predicate QueueKept(s: State) {
    && (forall i | 0 <= i < |s.queue| :: s.queue[i] in s.procs && s.procs[s.queue[i]].state.Runnable())
    && (forall p | p in s.procs && s.procs[p].state.Runnable() :: p in s.queue)
    && Distinct(s.queue)
  }

  function Prio(procs: map<Pid, Proc>, p: Pid): int {
    if p in procs then procs[p].prio else 0
  }

  /** Better priorities come first. */
  ghost predicate Sorted(procs: map<Pid, Proc>, q: seq<Pid>) {
    forall i, j | 0 <= i < j < |q| :: Prio(procs, q[i]) <= Prio(procs, q[j])
  }

  lemma SortedAt(s: State, i: nat, j: nat)
    requires Sorted(s.procs, s.queue) && i <= j < |s.queue|
    ensures Prio(s.procs, s.queue[i]) <= Prio(s.procs, s.queue[j])
  {
  }

  ghost predicate CpusKept(s: State) {
    && (forall p | p in s.procs && s.procs[p].state.RunningState? ::
          0 <= s.procs[p].cpu < |s.flows| && s.flows[s.procs[p].cpu] == Some(p))
    && (forall c | 0 <= c < |s.flows| && s.flows[c].Some? ::
          Is(s, s.flows[c].value, RunningState) && s.procs[s.flows[c].value].cpu == c)
    && (forall c: nat :: c in s.avail <==> c < |s.flows| && s.flows[c].None?)
    && (forall c: nat | c < |s.flows| :: c in s.order)
  }

  ghost predicate PinsKept(s: State) {
    forall p | p in s.procs :: var r := s.procs[p];
      && -1 <= r.cpu < |s.flows|
      && (r.pinned ==> 0 <= r.cpu && !r.migrable)
      && (r.state.RunningState? && !r.migrable ==> r.pinned)
  }

  ghost predicate Kept(s: State) {
    QueueKept(s) && Sorted(s.procs, s.queue) && CpusKept(s) && PinsKept(s)
  }

  // ---------- queue operations ----------

  function Insert(q: seq<Pid>, pos: nat, p: Pid): seq<Pid>
    requires pos <= |q|
  {
    seq(|q| + 1, i requires 0 <= i <= |q| => if i < pos then q[i] else if i == pos then p else q[i - 1])
  }

  function RemoveAt(q: seq<Pid>, k: nat): seq<Pid>
    requires k < |q|
  {
    seq(|q| - 1, i requires 0 <= i < |q| - 1 => if i < k then q[i] else q[i + 1])
  }

  /** The last place of p among the first n entries. */
  function IndexBelow(q: seq<Pid>, p: Pid, n: nat): (k: nat)
    requires n <= |q| && exists i :: 0 <= i < n && q[i] == p
    ensures k < n && q[k] == p
  {
    if q[n - 1] == p then n - 1 else IndexBelow(q, p, n - 1)
  }

  function IndexOf(q: seq<Pid>, p: Pid): (k: nat)
    requires p in q
    ensures k < |q| && q[k] == p
  {
    IndexBelow(q, p, |q|)
  }

  predicate Known(s: State, n: nat) {
    n <= |s.queue| && forall i | 0 <= i < n :: s.queue[i] in s.procs
  }

  /** Going back from position n, the first place not behind a worse priority. */
  function InsertPos(s: State, n: nat, prio: int): (pos: nat)
    requires Known(s, n)
    ensures pos <= n
    ensures forall i | pos <= i < n :: s.procs[s.queue[i]].prio > prio
    ensures pos > 0 ==> s.procs[s.queue[pos - 1]].prio <= prio
  {
    if n == 0 || s.procs[s.queue[n - 1]].prio <= prio then n else InsertPos(s, n - 1, prio)
  }

  /** Running, and on a processor that a process like r may use. */
  predicate Evictable(s: State, w: Pid, r: Proc) {
    Is(s, w, RunningState) && r.MayUse(s.procs[w].cpu)
  }

  /** Going back from position n past worse priorities, the first process that r could take the place of. */
  function Victim(s: State, n: nat, r: Proc): (v: Option<Pid>)
    requires Known(s, n)
    ensures v.Some? ==> v.value in s.queue[..n] && Evictable(s, v.value, r) && s.procs[v.value].prio > r.prio
    decreases n
  {
    if n == 0 || s.procs[s.queue[n - 1]].prio <= r.prio then None
    else if Evictable(s, s.queue[n - 1], r) then Some(s.queue[n - 1])
    else Victim(s, n - 1, r)
  }

  /** The first ready process in the queue that may use processor c. */
  function QueueGet(s: State, c: int, n: nat): (p: Option<Pid>)
    requires n <= |s.queue| && Known(s, |s.queue|)
    ensures p.Some? ==> p.value in s.queue && Is(s, p.value, ReadyState) && s.procs[p.value].MayUse(c)
    decreases |s.queue| - n
  {
    if n == |s.queue| then None
    else if Is(s, s.queue[n], ReadyState) && s.procs[s.queue[n]].MayUse(c) then Some(s.queue[n])
    else QueueGet(s, c, n + 1)
  }

  // ---------- process and processor operations ----------

  /** From invalid to ready: into the queue, behind its priority group. */
  function BecomeReady(s: State, p: Pid): State
    requires QueueKept(s) && Is(s, p, InvalidState)
  {
    s.(procs := s.procs[p := s.procs[p].(state := ReadyState)],
       queue := Insert(s.queue, InsertPos(s, |s.queue|, s.procs[p].prio), p))
  }

  /** From ready to invalid: out of the queue. */
  function BecomeNonReady(s: State, p: Pid): State
    requires Is(s, p, ReadyState) && p in s.queue
  {
    s.(procs := s.procs[p := s.procs[p].(state := InvalidState)], queue := RemoveAt(s.queue, IndexOf(s.queue, p)))
  }

  function SwitchIn(s: State, c: nat, p: Pid): State
    requires Is(s, p, ReadyState) && c < |s.flows| && s.procs[p].MayUse(c)
  {
    var r := s.procs[p];
    s.(procs := s.procs[p := r.(state := RunningState, cpu := c, pinned := r.pinned || !r.migrable)],
       flows := s.flows[c := Some(p)], avail := s.avail - {c})
  }

  function SwitchOut(s: State, c: nat, p: Pid): State
    requires Is(s, p, RunningState) && c < |s.flows|
  {
    s.(procs := s.procs[p := s.procs[p].(state := ReadyState)], flows := s.flows[c := None], avail := s.avail + {c})
  }

  /** The first available processor in seeking order. */
  function FirstAvail(order: seq<nat>, avail: set<nat>): (c: Option<nat>)
    ensures c.Some? ==> c.value in avail
    ensures c.None? ==> forall x | x in order :: x !in avail
  {
    if order == [] then None
    else if order[0] in avail then Some(order[0])
    else FirstAvail(order[1..], avail)
  }

  /** The processor a newly ready process gets without eviction: its own if that is idle, else, unless it is
      pinned, any available one. */
  function FreeCpu(s: State, r: Proc): (c: Option<nat>)
    requires CpusKept(s) && -1 <= r.cpu < |s.flows|
    ensures c.Some? ==> c.value < |s.flows| && s.flows[c.value].None? && r.MayUse(c.value)
    ensures c.None? ==> forall x: nat | x < |s.flows| && r.MayUse(x) && (r.pinned ==> 0 <= r.cpu) :: s.flows[x].Some?
  {
    if r.cpu >= 0 && s.flows[r.cpu].None? then Some(r.cpu as nat)
    else if !r.pinned then FirstAvail(s.order, s.avail)
    else None
  }

  /** v leaves its processor to p and is no longer runnable. */
  function Evict(s: State, v: Pid, p: Pid): State
    requires Is(s, v, RunningState) && 0 <= s.procs[v].cpu < |s.flows| && v in s.queue
    requires Is(s, p, ReadyState) && s.procs[p].MayUse(s.procs[v].cpu)
  {
    var c := s.procs[v].cpu;
    BecomeNonReady(SwitchIn(SwitchOut(s, c, v), c, p), v)
  }

  // ---------- each operation keeps the queue and processor invariants ----------

  lemma InsertFacts(q: seq<Pid>, pos: nat, p: Pid)
    requires pos <= |q| && Distinct(q) && p !in q
    ensures Distinct(Insert(q, pos, p))
    ensures forall x :: x in Insert(q, pos, p) <==> x in q || x == p
  {
    var q' := Insert(q, pos, p);
    forall i | 0 <= i < |q| ensures q[i] in q' { assert q'[if i < pos then i else i + 1] == q[i]; }
    assert q'[pos] == p;
  }

  lemma RemoveFacts(q: seq<Pid>, k: nat)
    requires k < |q| && Distinct(q)
    ensures Distinct(RemoveAt(q, k))
    ensures forall x :: x in RemoveAt(q, k) <==> x in q && x != q[k]
  {
    var q' := RemoveAt(q, k);
    forall i | 0 <= i < |q| && i != k ensures q[i] in q' { assert q'[if i < k then i else i - 1] == q[i]; }
    forall i | 0 <= i < |q'| ensures q'[i] in q && q'[i] != q[k] {
      var j := if i < k then i else i + 1;
      assert q'[i] == q[j];
    }
  }

  lemma InsertSorted(procs: map<Pid, Proc>, q: seq<Pid>, pos: nat, p: Pid)
    requires pos <= |q| && Sorted(procs, q)
    requires pos > 0 ==> Prio(procs, q[pos - 1]) <= Prio(procs, p)
    requires pos < |q| ==> Prio(procs, p) <= Prio(procs, q[pos])
    ensures Sorted(procs, Insert(q, pos, p))
  {
    var q' := Insert(q, pos, p);
    forall i, j | 0 <= i < j < |q'| ensures Prio(procs, q'[i]) <= Prio(procs, q'[j]) {
      assert i < pos ==> q'[i] == q[i];
      assert j > pos ==> q'[j] == q[j - 1];
    }
  }

  lemma RemoveSorted(procs: map<Pid, Proc>, q: seq<Pid>, k: nat)
    requires k < |q| && Sorted(procs, q)
    ensures Sorted(procs, RemoveAt(q, k))
  {
  }

  lemma SortedSame(procs: map<Pid, Proc>, procs': map<Pid, Proc>, q: seq<Pid>)
    requires Sorted(procs, q) && forall x | x in q :: Prio(procs, x) == Prio(procs', x)
    ensures Sorted(procs', q)
  {
  }

  lemma NotQueued(s: State, p: Pid)
    requires QueueKept(s) && Is(s, p, InvalidState)
    ensures p !in s.queue
  {
  }

  lemma QueueKeptFrom(s: State, s': State, p: Pid)
    requires QueueKept(s) && p in s.procs && Distinct(s'.queue) && forall x :: x in s'.queue <==> x in s.queue || x == p
    requires s'.procs == s.procs[p := s.procs[p].(state := ReadyState)]
    ensures QueueKept(s')
  {
    forall i | 0 <= i < |s'.queue| ensures s'.queue[i] in s'.procs && s'.procs[s'.queue[i]].state.Runnable() {
      assert s'.queue[i] in s'.queue;
    }
  }

  lemma QueueInsertQueue(s: State, p: Pid)
    requires QueueKept(s) && Sorted(s.procs, s.queue) && Is(s, p, InvalidState)
    ensures var s' := BecomeReady(s, p); QueueKept(s') && Sorted(s'.procs, s'.queue)
    ensures forall x :: x in BecomeReady(s, p).queue <==> x in s.queue || x == p
  {
    hide Distinct, Sorted, Insert;
    var s' := BecomeReady(s, p);
    var pos := InsertPos(s, |s.queue|, s.procs[p].prio);
    assert pos > 0 ==> Prio(s.procs, s.queue[pos - 1]) <= Prio(s.procs, p);
    assert pos < |s.queue| ==> Prio(s.procs, p) <= Prio(s.procs, s.queue[pos]);
    NotQueued(s, p);
    InsertFacts(s.queue, pos, p);
    InsertSorted(s.procs, s.queue, pos, p);
    QueueKeptFrom(s, s', p);
    SortedSame(s.procs, s'.procs, s'.queue);
  }

  lemma QueueInsertKept(s: State, p: Pid)
    requires Kept(s) && Is(s, p, InvalidState)
    ensures Kept(BecomeReady(s, p)) && p in BecomeReady(s, p).queue
  {
    hide Distinct, Sorted, Insert;
    QueueInsertQueue(s, p);
    var procs := BecomeReady(s, p).procs;
    assert forall x | x in procs && x != p :: procs[x] == s.procs[x];
  }

  lemma QueueRemoveKept(s: State, p: Pid)
    requires Kept(s) && Is(s, p, ReadyState)
    ensures p in s.queue && Kept(BecomeNonReady(s, p)) && p !in BecomeNonReady(s, p).queue
  {
    var s' := BecomeNonReady(s, p);
    var k := IndexOf(s.queue, p);
    RemoveFacts(s.queue, k);
    RemoveSorted(s.procs, s.queue, k);
    SortedSame(s.procs, s'.procs, s'.queue);
  }

  lemma SwitchInKept(s: State, c: nat, p: Pid)
    requires Kept(s) && Is(s, p, ReadyState) && c < |s.flows| && s.flows[c].None? && s.procs[p].MayUse(c)
    ensures Kept(SwitchIn(s, c, p))
  {
    hide Distinct;
  }

  lemma SwitchOutKept(s: State, p: Pid)
    requires Kept(s) && Is(s, p, RunningState)
    ensures 0 <= s.procs[p].cpu < |s.flows| && Kept(SwitchOut(s, s.procs[p].cpu, p))
  {
    hide Distinct;
  }

  lemma EvictKept(s: State, v: Pid, p: Pid)
    requires Kept(s) && Is(s, v, RunningState) && Is(s, p, ReadyState) && s.procs[p].MayUse(s.procs[v].cpu)
    ensures 0 <= s.procs[v].cpu < |s.flows| && v in s.queue && Kept(Evict(s, v, p)) && Is(Evict(s, v, p), v, InvalidState)
  {
    SwitchOutKept(s, v);
    var s1 := SwitchOut(s, s.procs[v].cpu, v);
    SwitchInKept(s1, s.procs[v].cpu, p);
    QueueRemoveKept(SwitchIn(s1, s.procs[v].cpu, p), v);
  }

  // ---------- scheduling ----------

  /** The queued processes of strictly worse priority. */
  function Worse(s: State, prio: int): set<Pid> {
    set p | p in s.queue && p in s.procs && s.procs[p].prio > prio
  }

  /** What an eviction leaves alone. */
  lemma EvictedLeaves(s: State, v: Pid, p: Pid)
    requires Is(s, v, RunningState) && Is(s, p, ReadyState) && 0 <= s.procs[v].cpu < |s.flows|
    requires v in s.queue && Distinct(s.queue) && s.procs[p].MayUse(s.procs[v].cpu)
    ensures var s' := Evict(s, v, p);
      && (forall x :: x in s'.queue <==> x in s.queue && x != v)
      && (forall x :: x in s'.procs <==> x in s.procs)
      && (forall x | x in s.procs :: s'.procs[x].prio == s.procs[x].prio)
  {
    RemoveFacts(s.queue, IndexOf(s.queue, v));
  }

  lemma EvictionKept(s: State, p: Pid, v: Pid)
    requires Kept(s) && Is(s, p, InvalidState) && Evictable(s, v, s.procs[p])
    ensures var s1 := BecomeReady(s, p);
      && Kept(s1) && Is(s1, p, ReadyState) && Is(s1, v, RunningState) && 0 <= s1.procs[v].cpu < |s1.flows| && v in s1.queue
      && Kept(Evict(s1, v, p)) && Is(Evict(s1, v, p), v, InvalidState)
  {
    QueueInsertKept(s, p);
    EvictKept(BecomeReady(s, p), v, p);
  }

  /** The process that p evicts becomes runnable anew; fewer queued processes are worse than it. */
  lemma EvictionShrinks(s: State, p: Pid, v: Pid)
    requires Kept(s) && Is(s, p, InvalidState)
    requires v in s.queue && Evictable(s, v, s.procs[p]) && s.procs[v].prio > s.procs[p].prio
    ensures var s1 := BecomeReady(s, p);
      && Kept(s1) && Is(s1, p, ReadyState) && Is(s1, v, RunningState) && 0 <= s1.procs[v].cpu < |s1.flows| && v in s1.queue
      && Kept(Evict(s1, v, p)) && Is(Evict(s1, v, p), v, InvalidState)
      && |Worse(Evict(s1, v, p), s.procs[v].prio)| < |Worse(s, s.procs[p].prio)|
  {
    EvictionKept(s, p, v);
    QueueInsertQueue(s, p);
    var s1 := BecomeReady(s, p);
    EvictedLeaves(s1, v, p);
    WorseShrinks(s, p, v, s1, Evict(s1, v, p));
  }

  lemma WorseShrinks(s: State, p: Pid, v: Pid, s1: State, s2: State)
    requires p in s.procs && v in s.procs && v in s.queue && s.procs[v].prio > s.procs[p].prio
    requires s1.procs == s.procs[p := s.procs[p].(state := ReadyState)]
    requires forall x :: x in s1.queue <==> x in s.queue || x == p
    requires forall x :: x in s2.queue <==> x in s1.queue && x != v
    requires forall x :: x in s2.procs <==> x in s1.procs
    requires forall x | x in s1.procs :: s2.procs[x].prio == s1.procs[x].prio
    ensures |Worse(s2, s.procs[v].prio)| < |Worse(s, s.procs[p].prio)|
  {
    var small, big := Worse(s2, s.procs[v].prio), Worse(s, s.procs[p].prio);
    assert v in big;
    SubsetOfSize(small, big - {v});
  }

  function MakeRunnable(s: State, p: Pid): (s': State)
    requires Kept(s) && Is(s, p, InvalidState)
    ensures Kept(s')
    decreases |Worse(s, s.procs[p].prio)|
  {
    QueueInsertKept(s, p);
    var s1 := BecomeReady(s, p);
    var v := Victim(s, |s.queue|, s.procs[p]);
    var c := FreeCpu(s1, s.procs[p]);
    if c.Some? then
      SwitchInKept(s1, c.value, p);
      SwitchIn(s1, c.value, p)
    else if v.Some? then
      EvictionShrinks(s, p, v.value);
      MakeRunnable(Evict(s1, v.value, p), v.value)
    else s1
  }

  function MakeNonRunnable(s: State, p: Pid): (s': State)
    requires Kept(s) && p in s.procs && s.procs[p].state.Runnable()
    ensures Kept(s') && Is(s', p, InvalidState)
  {
    if s.procs[p].state.RunningState? then
      SwitchOutKept(s, p);
      var c := s.procs[p].cpu;
      var s1 := SwitchOut(s, c, p);
      QueueRemoveKept(s1, p);
      var s2 := BecomeNonReady(s1, p);
      var next := QueueGet(s2, c, 0);
      if next.Some? then
        SwitchInKept(s2, c, next.value);
        SwitchIn(s2, c, next.value)
      else s2
    else
      QueueRemoveKept(s, p);
      BecomeNonReady(s, p)
  }

  // ---------- priorities ----------

  /** Going forward from position n, the first place behind no worse priority. */
  function DemoteEnd(s: State, n: nat, prio: int): (e: nat)
    requires Known(s, |s.queue|) && n <= |s.queue|
    ensures n <= e <= |s.queue|
    ensures n < e ==> s.procs[s.queue[e - 1]].prio <= prio
    ensures e < |s.queue| ==> s.procs[s.queue[e]].prio > prio
    decreases |s.queue| - n
  {
    if n == |s.queue| || s.procs[s.queue[n]].prio > prio then n else DemoteEnd(s, n + 1, prio)
  }

  /** The first ready process at positions n to e that may use processor c. */
  function PassedReady(s: State, n: nat, e: nat, c: int): (p: Option<Pid>)
    requires Known(s, |s.queue|) && n <= e <= |s.queue|
    ensures p.Some? ==> p.value in s.queue && Is(s, p.value, ReadyState) && s.procs[p.value].MayUse(c)
    decreases e - n
  {
    if n == e then None
    else if Is(s, s.queue[n], ReadyState) && s.procs[s.queue[n]].MayUse(c) then Some(s.queue[n])
    else PassedReady(s, n + 1, e, c)
  }

  function Move(q: seq<Pid>, k: nat, pos: nat): seq<Pid>
    requires k < |q| && pos < |q|
  {
    Insert(RemoveAt(q, k), pos, q[k])
  }

  /** The state with only p's priority changed. */
  function WithPrio(s: State, p: Pid, prio: int): State
    requires p in s.procs
  {
    s.(procs := s.procs[p := s.procs[p].(prio := prio)])
  }

  /** p's new priority and its new place in the queue, and the process to swap with: the last running one that a
      promotion passed, or the first ready one that a demotion passed. */
  function Reprioritize(s: State, p: Pid, prio: int): (r: (State, Option<Pid>))
    requires QueueKept(s) && p in s.procs
    ensures r.1.Some? ==> Is(r.0, r.1.value, if prio < s.procs[p].prio then RunningState else ReadyState)
  {
    var s0 := WithPrio(s, p, prio);
    if !s.procs[p].state.Runnable() then (s0, None)
    else
      var k := IndexOf(s.queue, p);
      if prio < s.procs[p].prio then
        (s0.(queue := Move(s.queue, k, InsertPos(s0, k, prio))), Victim(s0, k, s0.procs[p]))
      else
        var e := DemoteEnd(s0, k + 1, prio);
        (s0.(queue := Move(s.queue, k, e - 1)), PassedReady(s0, k + 1, e, s.procs[p].cpu))
  }

  /** The same entries, better priorities first. */
  ghost predicate SameOrdered(procs: map<Pid, Proc>, q: seq<Pid>, q': seq<Pid>) {
    Sorted(procs, q') && Distinct(q') && forall x :: x in q' <==> x in q
  }

  lemma MoveSorted(procs: map<Pid, Proc>, procs': map<Pid, Proc>, q: seq<Pid>, k: nat, pos: nat)
    requires k < |q| && pos < |q| && Distinct(q) && Sorted(procs, q)
    requires forall x | x in q && x != q[k] :: Prio(procs', x) == Prio(procs, x)
    requires pos > 0 ==> Prio(procs', RemoveAt(q, k)[pos - 1]) <= Prio(procs', q[k])
    requires pos < |q| - 1 ==> Prio(procs', q[k]) <= Prio(procs', RemoveAt(q, k)[pos])
    ensures SameOrdered(procs', q, Move(q, k, pos))
  {
    RemoveSorted(procs, q, k);
    RemoveFacts(q, k);
    SortedSame(procs, procs', RemoveAt(q, k));
    InsertSorted(procs', RemoveAt(q, k), pos, q[k]);
    InsertFacts(RemoveAt(q, k), pos, q[k]);
  }

  lemma MovedKept(s: State, q': seq<Pid>, p: Pid, prio: int)
    requires Kept(s) && p in s.procs && SameOrdered(WithPrio(s, p, prio).procs, s.queue, q')
    ensures Kept(WithPrio(s, p, prio).(queue := q'))
  {
    var s' := WithPrio(s, p, prio).(queue := q');
    assert forall x | x in s'.procs && x != p :: s'.procs[x] == s.procs[x];
    forall i | 0 <= i < |s'.queue| ensures s'.queue[i] in s'.procs && s'.procs[s'.queue[i]].state.Runnable() {
      assert s'.queue[i] in s.queue;
    }
  }

  /** The entry at k, whose priority alone differs in procs', fits at a better place pos, */
  lemma PromoteSorted(procs: map<Pid, Proc>, procs': map<Pid, Proc>, q: seq<Pid>, k: nat, pos: nat)
    requires k < |q| && pos <= k && Distinct(q) && Sorted(procs, q)
    requires forall x | x in q && x != q[k] :: Prio(procs', x) == Prio(procs, x)
    requires Prio(procs', q[k]) < Prio(procs, q[k])
    requires pos < k ==> Prio(procs', q[pos]) > Prio(procs', q[k])
    requires pos > 0 ==> Prio(procs', q[pos - 1]) <= Prio(procs', q[k])
    ensures SameOrdered(procs', q, Move(q, k, pos))
  {
    assert pos == k && k + 1 < |q| ==> Prio(procs, q[k]) <= Prio(procs, q[k + 1]) == Prio(procs', q[k + 1]);
    MoveSorted(procs, procs', q, k, pos);
  }

  /** or before a worse place e. */
  lemma DemoteSorted(procs: map<Pid, Proc>, procs': map<Pid, Proc>, q: seq<Pid>, k: nat, e: nat)
    requires k < e <= |q| && Distinct(q) && Sorted(procs, q)
    requires forall x | x in q && x != q[k] :: Prio(procs', x) == Prio(procs, x)
    requires Prio(procs', q[k]) > Prio(procs, q[k])
    requires k + 1 < e ==> Prio(procs', q[e - 1]) <= Prio(procs', q[k])
    requires e < |q| ==> Prio(procs', q[e]) > Prio(procs', q[k])
    ensures SameOrdered(procs', q, Move(q, k, e - 1))
  {
    assert k > 0 ==> Prio(procs, q[k]) >= Prio(procs, q[k - 1]) == Prio(procs', q[k - 1]);
    MoveSorted(procs, procs', q, k, e - 1);
  }

  lemma SameQueueOrdered(s: State, procs: map<Pid, Proc>)
    requires QueueKept(s) && Sorted(s.procs, s.queue) && forall x | x in s.queue :: Prio(procs, x) == Prio(s.procs, x)
    ensures SameOrdered(procs, s.queue, s.queue)
  {
  }

  lemma PromotedSorted(s: State, p: Pid, prio: int, k: nat)
    requires QueueKept(s) && Sorted(s.procs, s.queue) && p in s.procs && prio < s.procs[p].prio
    requires k < |s.queue| && s.queue[k] == p
    ensures var s0 := WithPrio(s, p, prio); SameOrdered(s0.procs, s.queue, Move(s.queue, k, InsertPos(s0, k, prio)))
  {
    hide Distinct, Sorted, Move, SameOrdered;
    var s0 := WithPrio(s, p, prio);
    var pos := InsertPos(s0, k, prio);
    assert pos < k ==> Prio(s0.procs, s.queue[pos]) > prio;
    assert pos > 0 ==> Prio(s0.procs, s.queue[pos - 1]) <= prio;
    PromoteSorted(s.procs, s0.procs, s.queue, k, pos);
  }

  lemma DemoteEndPrio(s: State, n: nat, prio: int)
    requires Known(s, |s.queue|) && n <= |s.queue|
    ensures var e := DemoteEnd(s, n, prio);
      && (n < e ==> Prio(s.procs, s.queue[e - 1]) <= prio)
      && (e < |s.queue| ==> Prio(s.procs, s.queue[e]) > prio)
  {
  }

  lemma WithPrioKnown(s: State, p: Pid, prio: int)
    requires QueueKept(s) && p in s.procs
    ensures Known(WithPrio(s, p, prio), |s.queue|) && Distinct(s.queue) && Prio(WithPrio(s, p, prio).procs, p) == prio
    ensures forall x | x != p :: Prio(WithPrio(s, p, prio).procs, x) == Prio(s.procs, x)
  {
    hide Distinct;
  }

  lemma DemotedSorted(s: State, p: Pid, prio: int, k: nat)
    requires QueueKept(s) && Sorted(s.procs, s.queue) && p in s.procs && prio > s.procs[p].prio
    requires k < |s.queue| && s.queue[k] == p && Known(WithPrio(s, p, prio), |s.queue|)
    ensures var s0 := WithPrio(s, p, prio); SameOrdered(s0.procs, s.queue, Move(s.queue, k, DemoteEnd(s0, k + 1, prio) - 1))
  {
    hide QueueKept, Distinct, Sorted, Move, SameOrdered, Known;
    var s0 := WithPrio(s, p, prio);
    var e := DemoteEnd(s0, k + 1, prio);
    WithPrioKnown(s, p, prio);
    DemoteEndPrio(s0, k + 1, prio);
    DemoteSorted(s.procs, s0.procs, s.queue, k, e);
  }

  lemma PromotedKept(s: State, p: Pid, prio: int)
    requires Kept(s) && p in s.procs && s.procs[p].state.Runnable() && prio < s.procs[p].prio
    ensures Kept(Reprioritize(s, p, prio).0)
  {
    hide Distinct, Sorted, Move, SameOrdered, CpusKept, PinsKept;
    var k := IndexOf(s.queue, p);
    PromotedSorted(s, p, prio, k);
    MovedKept(s, Move(s.queue, k, InsertPos(WithPrio(s, p, prio), k, prio)), p, prio);
  }

  lemma DemotedKept(s: State, p: Pid, prio: int)
    requires Kept(s) && p in s.procs && s.procs[p].state.Runnable() && prio > s.procs[p].prio
    ensures Kept(Reprioritize(s, p, prio).0)
  {
    hide Distinct, Sorted, Move, SameOrdered, CpusKept, PinsKept, DemoteEnd, PassedReady;
    var k := IndexOf(s.queue, p);
    WithPrioKnown(s, p, prio);
    DemotedSorted(s, p, prio, k);
    MovedKept(s, Move(s.queue, k, DemoteEnd(WithPrio(s, p, prio), k + 1, prio) - 1), p, prio);
  }

  lemma ReprioritizeKept(s: State, p: Pid, prio: int)
    requires Kept(s) && p in s.procs && prio != s.procs[p].prio
    ensures Kept(Reprioritize(s, p, prio).0)
  {
    if !s.procs[p].state.Runnable() {
      NotRunnable(s, p);
      SameQueueOrdered(s, WithPrio(s, p, prio).procs);
      MovedKept(s, s.queue, p, prio);
    } else if prio < s.procs[p].prio {
      PromotedKept(s, p, prio);
    } else {
      DemotedKept(s, p, prio);
    }
  }

  lemma NotRunnable(s: State, p: Pid)
    requires QueueKept(s) && p in s.procs && !s.procs[p].state.Runnable()
    ensures p !in s.queue
  {
  }

  /** A process gets a new priority; it swaps places with a running or ready process where that calls for it. */
  function SetPriority(s: State, p: Pid, prio: int): (s': State)
    requires Kept(s) && p in s.procs
    ensures Kept(s')
  {
    if prio == s.procs[p].prio then s
    else
      ReprioritizeKept(s, p, prio);
      var (s1, other) := Reprioritize(s, p, prio);
      if prio > s.procs[p].prio && s1.procs[p].state.RunningState? && other.Some? then
        SwitchOutKept(s1, p);
        var c := s1.procs[p].cpu;
        SwitchInKept(SwitchOut(s1, c, p), c, other.value);
        SwitchIn(SwitchOut(s1, c, p), c, other.value)
      else if prio < s.procs[p].prio && s1.procs[p].state.ReadyState? && other.Some? then
        SwitchOutKept(s1, other.value);
        var c := s1.procs[other.value].cpu;
        SwitchInKept(SwitchOut(s1, c, other.value), c, p);
        SwitchIn(SwitchOut(s1, c, other.value), c, p)
      else s1
  }
}
