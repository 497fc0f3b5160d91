/**
 The scheduler as the simulator runs it: one object whose process table, priority
 queue and processors are updated in place, with the queue walked entry by entry.
 */
module SchedSystem {
  import opened Options
  import S = Sched
  import opened Sched

  lemma {:induction false} InsertPosSame(s: State, s': State, n: nat, prio: int)
    requires Known(s, n) && Known(s', n) && s.queue[..n] == s'.queue[..n]
    requires forall x | x in s.queue[..n] :: Prio(s.procs, x) == Prio(s'.procs, x)
    ensures InsertPos(s, n, prio) == InsertPos(s', n, prio)
  {
    if n > 0 {
      assert s.queue[..n - 1] == s.queue[..n][..n - 1] && s'.queue[..n - 1] == s'.queue[..n][..n - 1];
      assert s.queue[n - 1] == s.queue[..n][n - 1] == s'.queue[..n][n - 1] == s'.queue[n - 1];
      assert s.queue[n - 1] in s.queue[..n];
      InsertPosSame(s, s', n - 1, prio);
    }
  }

  lemma {:induction false} VictimSame(s: State, s': State, n: nat, r: Proc, r': Proc)
    requires Known(s, n) && Known(s', n) && s.queue[..n] == s'.queue[..n]
    requires forall x | x in s.queue[..n] :: s.procs[x] == s'.procs[x]
    requires r'.prio == r.prio && r'.pinned == r.pinned && r'.cpu == r.cpu
    ensures Victim(s, n, r) == Victim(s', n, r')
    decreases n
  {
    if n > 0 {
      assert s.queue[..n - 1] == s.queue[..n][..n - 1] && s'.queue[..n - 1] == s'.queue[..n][..n - 1];
      assert s.queue[n - 1] == s.queue[..n][n - 1] == s'.queue[..n][n - 1] == s'.queue[n - 1];
      VictimSame(s, s', n - 1, r, r');
    }
  }

  lemma AppendIndex(q: seq<Pid>, p: Pid)
    requires p !in q
    ensures IndexOf(q + [p], p) == |q|
  {
    var k := IndexOf(q + [p], p);
  }

  lemma RemoveSlices(q: seq<Pid>, k: nat)
    requires k < |q|
    ensures q[..k] + q[k + 1..] == RemoveAt(q, k) && |RemoveAt(q, k)| == |q| - 1
  {
  }

  lemma InsertSlices(q: seq<Pid>, pos: nat, p: Pid)
    requires pos <= |q|
    ensures q[..pos] + [p] + q[pos..] == Insert(q, pos, p)
  {
  }

  lemma MoveNowhere(q: seq<Pid>, k: nat)
    requires k < |q|
    ensures Move(q, k, k) == q
  {
  }

  /** Every processor, in order of its number, asked for a free flow. */
  function FirstIdle(flows: seq<Option<Pid>>, n: nat): Option<nat>
    requires n <= |flows|
    decreases |flows| - n
  {
    if n == |flows| then None else if flows[n] == None then Some(n) else FirstIdle(flows, n + 1)
  }

  /** With the available set kept right, the last look finds nothing new. */
  lemma {:induction false} NothingElseIdle(s: State, n: nat)
    requires CpusKept(s) && n <= |s.flows| && FirstAvail(s.order, s.avail).None?
    ensures FirstIdle(s.flows, n).None?
    decreases |s.flows| - n
  {
    if n < |s.flows| {
      assert n in s.order;
      NothingElseIdle(s, n + 1);
    }
  }

  /** Promoting a process appended to the queue inserts it, and passes what a scan of the old queue would. */
  lemma AppendScan(s: State, mid: State, p: Pid)
    requires QueueKept(s) && Is(s, p, InvalidState)
    requires mid == s.(procs := s.procs[p := s.procs[p].(state := ReadyState)], queue := s.queue + [p])
    ensures Known(mid, |mid.queue|) && IndexOf(mid.queue, p) == |s.queue|
    ensures InsertPos(mid, |s.queue|, s.procs[p].prio) == InsertPos(s, |s.queue|, s.procs[p].prio)
    ensures Victim(mid, |s.queue|, mid.procs[p]) == Victim(s, |s.queue|, s.procs[p])
    ensures forall pos: nat | pos <= |s.queue| :: Move(mid.queue, |s.queue|, pos) == Insert(s.queue, pos, p)
  {
    NotQueued(s, p);
    assert s.queue[..|s.queue|] == mid.queue[..|s.queue|] == s.queue;
    AppendIndex(s.queue, p);
    InsertPosSame(s, mid, |s.queue|, s.procs[p].prio);
    VictimSame(s, mid, |s.queue|, s.procs[p], mid.procs[p]);
    assert RemoveAt(mid.queue, |s.queue|) == s.queue;
  }

  /** One step of the walk forward: it stops at a priority no worse, and passes a worse one. */
  lemma PassesOne(s: State, n: nat, me: Proc)
    requires Known(s, n) && n > 0
    ensures var w := s.queue[n - 1];
      if s.procs[w].prio <= me.prio then InsertPos(s, n, me.prio) == n && Victim(s, n, me).None?
      else
        && InsertPos(s, n, me.prio) == InsertPos(s, n - 1, me.prio)
        && Victim(s, n, me) == if Evictable(s, w, me) then Some(w) else Victim(s, n - 1, me)
  {
  }

  lemma PassesNone(s: State, me: Proc)
    ensures InsertPos(s, 0, me.prio) == 0 && Victim(s, 0, me).None?
  {
  }

  class RunningProcs {
    var procs: map<Pid, Proc>
    var queue: seq<Pid>
    var flows: seq<Option<Pid>>
    var avail: set<nat>
    const order: seq<nat>

    ghost function Now(): State
      reads this
    {
      State(procs, queue, flows, avail, order)
    }

    constructor (cpus: nat, order: seq<nat>)
      requires forall c: nat | c < cpus :: c in order
      ensures Now() == State(map[], [], seq(cpus, i => None), (set c | c in order && c < cpus), order) && Kept(Now())
    {
      procs, queue := map[], [];
      flows := seq(cpus, i => None);
      avail := set c | c in order && c < cpus;
      this.order := order;
    }

    // ---------- the priority queue ----------

    /** The highest-priority ready process that may use processor cpu. */
    method QueueGet(cpu: int) returns (proc: Option<Pid>)
      requires Known(Now(), |queue|)
      ensures proc == S.QueueGet(Now(), cpu, 0)
    {
      var it := 0;
      while it != |queue|
        invariant 0 <= it <= |queue|
        invariant S.QueueGet(Now(), cpu, it) == S.QueueGet(Now(), cpu, 0)
      {
        var r := procs[queue[it]];
        if r.state == ReadyState && (!r.pinned || r.cpu == cpu) { return Some(queue[it]); }
        it := it + 1;
      }
      return None;
    }

    /** Erases the entry at `position` and inserts it anew, so that it ends at index `target`. */
    method Splice(position: nat, target: nat)
      requires position < |queue| && target < |queue|
      modifies this`queue
      ensures queue == Move(old(queue), position, target)
    {
      var p := queue[position];
      RemoveSlices(queue, position);
      queue := queue[..position] + queue[position + 1..];
      InsertSlices(queue, target, p);
      queue := queue[..target] + [p] + queue[target..];
    }

    /** The walk forward from `position` past priorities worse than me's: where it ends, and the last running process
        passed that me could replace. */
    method PassWorse(position: nat, me: Proc) returns (whereIt: nat, victim: Option<Pid>)
      requires Known(Now(), position)
      ensures whereIt == InsertPos(Now(), position, me.prio) && victim == Victim(Now(), position, me)
    {
      hide InsertPos, Victim;
      whereIt, victim := position, None;
      while whereIt != 0
        invariant 0 <= whereIt <= position
        invariant InsertPos(Now(), position, me.prio) == InsertPos(Now(), whereIt, me.prio)
        invariant Victim(Now(), position, me) == if victim.Some? then victim else Victim(Now(), whereIt, me)
      {
        PassesOne(Now(), whereIt, me);
        var other := queue[whereIt - 1];
        var w := procs[other];
        if w.prio <= me.prio { return; }
        if victim == None && w.state == RunningState && (!me.pinned || me.cpu == w.cpu) { victim := Some(other); }
        whereIt := whereIt - 1;
      }
      PassesNone(Now(), me);
    }

    /** Moves p forward past worse priorities; returns the last running process passed that p could replace. */
    method QueuePromote(p: Pid) returns (victim: Option<Pid>)
      requires Known(Now(), |queue|) && p in queue
      modifies this`queue
      ensures var s := old(Now()); var k := IndexOf(s.queue, p);
        && queue == Move(s.queue, k, InsertPos(s, k, procs[p].prio))
        && victim == Victim(s, k, procs[p])
    {
      hide Move, InsertPos, Victim, IndexOf;
      var position, whereIt := IndexOf(queue, p), 0;
      whereIt, victim := PassWorse(position, procs[p]);
      if whereIt != position {
        Splice(position, whereIt);
      } else {
        MoveNowhere(queue, position);
      }
    }

    /** Moves p backward past priorities no worse; returns the first ready process passed that may use p's processor. */
    method QueueDemote(p: Pid) returns (next: Option<Pid>)
      requires Known(Now(), |queue|) && p in queue
      modifies this`queue
      ensures var s := old(Now()); var k := IndexOf(s.queue, p); var e := DemoteEnd(s, k + 1, procs[p].prio);
        && queue == Move(s.queue, k, e - 1)
        && next == PassedReady(s, k + 1, e, procs[p].cpu)
    {
      var position := IndexOf(queue, p);
      var whereIt, me := position + 1, procs[p];
      next := None;
      ghost var s := Now();
      ghost var e := DemoteEnd(s, position + 1, me.prio);
      while whereIt != |queue|
        invariant position < whereIt <= e <= |queue|
        invariant DemoteEnd(s, whereIt, me.prio) == e
        invariant PassedReady(s, position + 1, e, me.cpu) == if next.Some? then next else PassedReady(s, whereIt, e, me.cpu)
      {
        var other := queue[whereIt];
        var w := procs[other];
        if w.prio > me.prio { break; }
        if next == None && w.state == ReadyState && (!w.pinned || w.cpu == me.cpu) { next := Some(other); }
        whereIt := whereIt + 1;
      }
      assert whereIt == e;
      Splice(position, whereIt - 1);
    }

    // ---------- process states ----------

    method BecomeReady(p: Pid) returns (victim: Option<Pid>)
      requires Kept(Now()) && Is(Now(), p, InvalidState)
      modifies this`procs, this`queue
      ensures Now() == S.BecomeReady(old(Now()), p)
      ensures victim == Victim(old(Now()), |old(queue)|, old(procs)[p])
    {
      ghost var s := Now();
      procs := procs[p := procs[p].(state := ReadyState)];
      queue := queue + [p];
      AppendScan(s, Now(), p);
      victim := QueuePromote(p);
    }

    method BecomeNonReady(p: Pid)
      requires Is(Now(), p, ReadyState) && p in queue
      modifies this`procs, this`queue
      ensures Now() == S.BecomeNonReady(old(Now()), p)
    {
      var position := IndexOf(queue, p);
      procs := procs[p := procs[p].(state := InvalidState)];
      RemoveSlices(queue, position);
      queue := queue[..position] + queue[position + 1..];
    }

    // ---------- processors ----------

    method SwitchIn(c: nat, p: Pid)
      requires Is(Now(), p, ReadyState) && c < |flows| && procs[p].MayUse(c)
      modifies this`procs, this`flows, this`avail
      ensures Now() == S.SwitchIn(old(Now()), c, p)
    {
      avail := avail - {c};
      var r := procs[p].(cpu := c);
      if !r.migrable { r := r.(pinned := true); }
      procs := procs[p := r.(state := RunningState)];
      flows := flows[c := Some(p)];
    }

    method SwitchOut(c: nat, p: Pid)
      requires Is(Now(), p, RunningState) && c < |flows|
      modifies this`procs, this`flows, this`avail
      ensures Now() == S.SwitchOut(old(Now()), c, p)
    {
      procs := procs[p := procs[p].(state := ReadyState)];
      flows := flows[c := None];
      avail := avail + {c};
    }

    /** The first available processor; without one, a last look at every processor for a free flow. */
    method GetAvailableProcessor() returns (c: Option<nat>)
      ensures c == if FirstAvail(order, avail).Some? then FirstAvail(order, avail) else FirstIdle(flows, 0)
    {
      var i := 0;
      while i != |order|
        invariant 0 <= i <= |order|
        invariant FirstAvail(order[i..], avail) == FirstAvail(order, avail)
      {
        if order[i] in avail { return Some(order[i]); }
        assert order[i..][1..] == order[i + 1..];
        i := i + 1;
      }
      i := 0;
      while i < |flows|
        invariant 0 <= i <= |flows|
        invariant FirstIdle(flows, i) == FirstIdle(flows, 0)
      {
        if flows[i] == None { return Some(i); }
        i := i + 1;
      }
      return None;
    }

    // ---------- scheduling ----------

    method MakeRunnable(p: Pid)
      requires Kept(Now()) && Is(Now(), p, InvalidState)
      modifies this
      ensures Now() == S.MakeRunnable(old(Now()), p) && Kept(Now())
      decreases |Worse(Now(), procs[p].prio)|
    {
      ghost var s := Now();
      QueueInsertKept(s, p);
      var victim := BecomeReady(p);
      var cpu := procs[p].cpu;
      if cpu >= 0 && flows[cpu] == None {
        SwitchInKept(Now(), cpu, p);
        SwitchIn(cpu, p);
        return;
      }
      if !procs[p].pinned {
        var core := GetAvailableProcessor();
        if FirstAvail(order, avail).None? { NothingElseIdle(Now(), 0); }
        if core.Some? {
          SwitchInKept(Now(), core.value, p);
          SwitchIn(core.value, p);
          return;
        }
      }
      if victim.Some? {
        var v := victim.value;
        EvictionShrinks(s, p, v);
        cpu := procs[v].cpu;
        SwitchOut(cpu, v);
        SwitchIn(cpu, p);
        BecomeNonReady(v);
        MakeRunnable(v);
      }
    }

    method MakeNonRunnable(p: Pid)
      requires Kept(Now()) && p in procs && procs[p].state.Runnable()
      modifies this
      ensures Now() == S.MakeNonRunnable(old(Now()), p) && Kept(Now())
    {
      if procs[p].state == RunningState {
        var cpu := procs[p].cpu;
        SwitchOutKept(Now(), p);
        SwitchOut(cpu, p);
        QueueRemoveKept(Now(), p);
        BecomeNonReady(p);
        var next := QueueGet(cpu);
        if next.Some? {
          SwitchInKept(Now(), cpu, next.value);
          SwitchIn(cpu, next.value);
        }
      } else {
        QueueRemoveKept(Now(), p);
        BecomeNonReady(p);
      }
    }

    method SetPriority(p: Pid, newPrio: int)
      requires Kept(Now()) && p in procs
      modifies this
      ensures Now() == S.SetPriority(old(Now()), p, newPrio) && Kept(Now())
    {
      ghost var s := Now();
      var oldPrio := procs[p].prio;
      if newPrio == oldPrio { return; }
      var other := Reposition(p, newPrio);
      ReprioritizeKept(s, p, newPrio);
      if newPrio > oldPrio {
        if procs[p].state == RunningState && other.Some? {
          var cpu := procs[p].cpu;
          SwitchOutKept(Now(), p);
          SwitchOut(cpu, p);
          SwitchIn(cpu, other.value);
        }
      } else if procs[p].state == ReadyState && other.Some? {
        var cpu := procs[other.value].cpu;
        SwitchOutKept(Now(), other.value);
        SwitchOut(cpu, other.value);
        SwitchIn(cpu, p);
      }
    }

    /** The new priority and, for a queued process, the new place. */
    method Reposition(p: Pid, newPrio: int) returns (other: Option<Pid>)
      requires Kept(Now()) && p in procs && newPrio != procs[p].prio
      modifies this`procs, this`queue
      ensures (Now(), other) == Reprioritize(old(Now()), p, newPrio)
    {
      hide Distinct, Sorted, CpusKept, PinsKept;
      var oldPrio := procs[p].prio;
      var queued := p in queue;
      assert queued == procs[p].state.Runnable();
      procs := procs[p := procs[p].(prio := newPrio)];
      assert Now() == WithPrio(old(Now()), p, newPrio);
      hide Move, InsertPos, Victim, DemoteEnd, PassedReady, IndexOf;
      other := None;
      if queued {
        if newPrio < oldPrio { other := QueuePromote(p); } else { other := QueueDemote(p); }
      }
    }
  }
}
