/**
 The sense-reversing barrier: n threads that call it over and over, interleaved one
 shared-memory access at a time.
 */
module Barrier {
  import opened Options

  /** Where a thread is in its call; `lsense` is its private copy of the sense it waits for. */
  datatype Pc =
    | Outside              // not in the barrier: the next action reads gsense
    | Entered(lsense: int) // about to fetch and increment count
    | Last(lsense: int)    // incremented last: about to clear count
    | Cleared(lsense: int) // about to set gsense
    | Spinning(lsense: int)
    | Leaving              // past the wait or the release, about to return

  /** The barrier's two shared words and its threads. */
  datatype State = State(count: int, gsense: int, pc: seq<Pc>)

  function Init(n: nat): State {
    State(0, 0, seq(n, i => Outside))
  }

  function Not(x: int): int { if x == 0 then 1 else 0 }

  /** Thread t's next atomic action. */
  function Next(s: State, t: nat): (s': State)
    requires t < |s.pc|
    ensures |s'.pc| == |s.pc|
  {
    match s.pc[t]
    case Outside => s.(pc := s.pc[t := Entered(Not(s.gsense))])
    case Entered(l) =>
      s.(count := s.count + 1, pc := s.pc[t := if s.count == |s.pc| - 1 then Last(l) else Spinning(l)])
    case Last(l) => s.(count := 0, pc := s.pc[t := Cleared(l)])
    case Cleared(l) => s.(gsense := l, pc := s.pc[t := Leaving])
    case Spinning(l) => if l != s.gsense then s else s.(pc := s.pc[t := Leaving])
    case Leaving => s.(pc := s.pc[t := Outside])
  }

  /** A thread that can only look at gsense again. */
  predicate Blocked(s: State, t: nat)
    requires t < |s.pc|
  {
    s.pc[t].Spinning? && s.pc[t].lsense != s.gsense
  }

  // ---------- runs ----------

  /** A run so far: the state, and of its history how often each thread has incremented and returned, how often
      the sense was flipped and the count cleared, and how many actions were not futile looks at gsense. */
  datatype Run = Run(s: State, inc: seq<nat>, ret: seq<nat>, flips: nat, clears: nat, useful: nat)

  function Start(n: nat): Run {
    Run(Init(n), seq(n, i => 0), seq(n, i => 0), 0, 0, 0)
  }

  predicate Shape(r: Run) {
    |r.inc| == |r.s.pc| && |r.ret| == |r.s.pc|
  }

  function Take(r: Run, t: nat): (r': Run)
    requires Shape(r) && t < |r.s.pc|
    ensures Shape(r') && |r'.s.pc| == |r.s.pc|
  {
    var pc := r.s.pc[t];
    Run(Next(r.s, t),
        if pc.Entered? then r.inc[t := r.inc[t] + 1] else r.inc,
        if pc.Leaving? then r.ret[t := r.ret[t] + 1] else r.ret,
        if pc.Cleared? then r.flips + 1 else r.flips,
        if pc.Last? then r.clears + 1 else r.clears,
        if Blocked(r.s, t) then r.useful else r.useful + 1)
  }

  predicate Schedule(n: nat, sched: seq<nat>) {
    forall i | 0 <= i < |sched| :: sched[i] < n
  }

  /** Whatever order the threads take their actions in. */
  function Exec(n: nat, sched: seq<nat>): (r: Run)
    requires Schedule(n, sched)
    ensures Shape(r) && |r.s.pc| == n
    decreases |sched|
  {
    if sched == [] then Start(n) else Take(Exec(n, sched[..|sched| - 1]), sched[|sched| - 1])
  }

  // ---------- counting ----------

  function CountEq(q: seq<nat>, v: nat, n: nat): (c: nat)
    requires n <= |q|
    ensures c <= n
  {
    if n == 0 then 0 else CountEq(q, v, n - 1) + if q[n - 1] == v then 1 else 0
  }

  lemma {:induction false} CountUpdate(q: seq<nat>, v: nat, n: nat, t: nat, x: nat)
    requires n <= |q| && t < |q|
    ensures CountEq(q[t := x], v, n) ==
      CountEq(q, v, n) + (if t < n && x == v then 1 else 0) - (if t < n && q[t] == v then 1 else 0)
  {
    if n > 0 { CountUpdate(q, v, n - 1, t, x); }
  }

  lemma {:induction false} CountAll(q: seq<nat>, v: nat, n: nat)
    requires n <= |q|
    ensures CountEq(q, v, n) == n <==> forall i | 0 <= i < n :: q[i] == v
  {
    if n > 0 { CountAll(q, v, n - 1); }
  }

  lemma {:induction false} CountNone(q: seq<nat>, v: nat, n: nat)
    requires n <= |q| && forall i | 0 <= i < n :: q[i] != v
    ensures CountEq(q, v, n) == 0
  {
    if n > 0 { CountNone(q, v, n - 1); }
  }

  // ---------- the invariant ----------

  predicate Closing(pc: Pc) { pc.Last? || pc.Cleared? }

  /** What a thread's place says about its counts when e episodes are over. */
  predicate InPlace(pc: Pc, inc: nat, ret: nat, e: nat) {
    match pc
    case Outside => inc == ret == e
    case Entered(l) => inc == ret == e && l == (e + 1) % 2
    case Spinning(l) => inc == ret + 1 && (inc == e || inc == e + 1) && l == inc % 2
    case Last(l) => inc == ret + 1 == e + 1 && l == (e + 1) % 2
    case Cleared(l) => inc == ret + 1 == e + 1 && l == (e + 1) % 2
    case Leaving => inc == ret + 1 == e
  }

  /** While an episode is open, count says how many threads have incremented in it. Once all have, exactly the
      last one, c, closes the episode: it clears count and then flips the sense. */
  predicate EpisodeKept(r: Run, c: Option<nat>)
    requires Shape(r)
  {
    match c
    case None =>
      && (forall t | 0 <= t < |r.s.pc| :: !Closing(r.s.pc[t]))
      && r.s.count == CountEq(r.inc, r.flips + 1, |r.inc|)
      && (0 < |r.s.pc| ==> r.s.count < |r.s.pc|)
      && r.clears == r.flips
    case Some(k) =>
      && k < |r.s.pc| && Closing(r.s.pc[k])
      && (forall t | 0 <= t < |r.s.pc| :: (Closing(r.s.pc[t]) ==> t == k) && r.inc[t] == r.flips + 1)
      && (if r.s.pc[k].Last? then r.clears == r.flips else r.s.count == 0 && r.clears == r.flips + 1)
  }

  predicate Kept(r: Run, c: Option<nat>) {
    && Shape(r)
    && r.s.gsense == r.flips % 2
    && (forall t | 0 <= t < |r.s.pc| :: InPlace(r.s.pc[t], r.inc[t], r.ret[t], r.flips))
    && EpisodeKept(r, c)
  }

  /** An increment: the last one makes its thread the closer. */
  lemma KeptInc(r: Run, t: nat)
    requires Kept(r, None) && t < |r.s.pc| && r.s.pc[t].Entered?
    ensures Kept(Take(r, t), if r.s.count == |r.s.pc| - 1 then Some(t) else None)
  {
    var r', e := Take(r, t), r.flips;
    CountUpdate(r.inc, e + 1, |r.inc|, t, e + 1);
    CountAll(r'.inc, e + 1, |r.inc|);
  }

  /** The flip starts the next episode, in which nobody has incremented yet. */
  lemma KeptFlip(r: Run, t: nat)
    requires Kept(r, Some(t)) && r.s.pc[t].Cleared?
    ensures Kept(Take(r, t), None)
  {
    CountNone(r.inc, r.flips + 2, |r.inc|);
  }

  lemma KeptStep(r: Run, c: Option<nat>, t: nat) returns (c': Option<nat>)
    requires Kept(r, c) && t < |r.s.pc|
    ensures Kept(Take(r, t), c')
  {
    c' := c;
    match r.s.pc[t] {
      case Entered(_) =>
        assert c.None?;
        KeptInc(r, t);
        c' := if r.s.count == |r.s.pc| - 1 then Some(t) else None;
      case Cleared(_) =>
        assert c == Some(t);
        KeptFlip(r, t);
        c' := None;
      case _ =>
    }
  }

  lemma {:induction false} KeptRun(n: nat, sched: seq<nat>) returns (c: Option<nat>)
    requires Schedule(n, sched)
    ensures Kept(Exec(n, sched), c)
  {
    if sched == [] {
      c := None;
      CountNone(Start(n).inc, 1, n);
    } else {
      c := KeptRun(n, sched[..|sched| - 1]);
      c := KeptStep(Exec(n, sched[..|sched| - 1]), c, sched[|sched| - 1]);
    }
  }

  // ---------- safety ----------

  /** No thread returns from its k-th call before all n threads have incremented k times; no thread is ever more
      than one episode ahead of another. */
  lemma Safety(n: nat, sched: seq<nat>, t: nat, u: nat)
    requires Schedule(n, sched) && t < n && u < n
    ensures var r := Exec(n, sched);
      && r.ret[t] <= r.inc[u]
      && (r.s.pc[t].Leaving? ==> r.ret[t] + 1 <= r.inc[u])
      && r.inc[t] <= r.inc[u] + 1 && r.ret[t] <= r.ret[u] + 1
  {
    var c := KeptRun(n, sched);
    var r := Exec(n, sched);
    assert InPlace(r.s.pc[t], r.inc[t], r.ret[t], r.flips) && InPlace(r.s.pc[u], r.inc[u], r.ret[u], r.flips);
  }

  /** Whenever all threads are out again, each has completed as many calls as every other and count is back at 0:
      but for the sense, which only has to be either 0 or 1, the barrier is as new. */
  lemma Reusable(n: nat, sched: seq<nat>)
    requires Schedule(n, sched) && 0 < n
    requires forall t | 0 <= t < n :: Exec(n, sched).s.pc[t].Outside?
    ensures var r := Exec(n, sched);
      && r.s.count == 0 && r.s.gsense in {0, 1}
      && forall t | 0 <= t < n :: r.ret[t] == r.inc[t] == r.flips
  {
    var c := KeptRun(n, sched);
    var r := Exec(n, sched);
    assert r.s.pc[0].Outside?;
    assert InPlace(r.s.pc[0], r.inc[0], r.ret[0], r.flips);
    assert c.None?;
    CountNone(r.inc, r.flips + 1, n);
  }

  // ---------- progress ----------

  /** In every reachable state some thread can do more than look at gsense again. */
  lemma NeverStuck(n: nat, sched: seq<nat>)
    requires Schedule(n, sched) && 0 < n
    ensures exists t :: 0 <= t < n && !Blocked(Exec(n, sched).s, t)
  {
    var c := KeptRun(n, sched);
    var r := Exec(n, sched);
    match c {
      case Some(t) => assert !Blocked(r.s, t);
      case None =>
        CountAll(r.inc, r.flips + 1, n);
        var t :| 0 <= t < n && r.inc[t] != r.flips + 1;
        assert InPlace(r.s.pc[t], r.inc[t], r.ret[t], r.flips);
        assert !Blocked(r.s, t);
    }
  }

  /** The useful actions of a call up to a place; clearing the count is counted apart. */
  function Done(pc: Pc): nat {
    match pc
    case Outside => 0
    case Entered(_) => 1
    case Spinning(_) => 2
    case Last(_) => 2
    case Cleared(_) => 2
    case Leaving => 3
  }

  function Work(r: Run, n: nat): nat
    requires Shape(r) && n <= |r.s.pc|
  {
    if n == 0 then 0 else Work(r, n - 1) + 4 * r.ret[n - 1] + Done(r.s.pc[n - 1])
  }

  lemma {:induction false} WorkStep(r: Run, t: nat, n: nat)
    requires Shape(r) && t < |r.s.pc| && n <= |r.s.pc|
    ensures Work(Take(r, t), n) == Work(r, n) + if t < n && !Blocked(r.s, t) && !r.s.pc[t].Last? then 1 else 0
  {
    if n > 0 { WorkStep(r, t, n - 1); }
  }

  /** Every call takes four useful actions, and every episode one more: the last thread's clearing of count. */
  lemma {:induction false} UsefulIsWork(n: nat, sched: seq<nat>)
    requires Schedule(n, sched)
    ensures var r := Exec(n, sched); r.useful == Work(r, n) + r.clears
  {
    if sched == [] {
      WorkStart(n, n);
    } else {
      var before := Exec(n, sched[..|sched| - 1]);
      UsefulIsWork(n, sched[..|sched| - 1]);
      WorkStep(before, sched[|sched| - 1], n);
    }
  }

  lemma {:induction false} WorkStart(n: nat, k: nat)
    requires k <= n
    ensures Work(Start(n), k) == 0
  {
    if k > 0 { WorkStart(n, k - 1); }
  }

  lemma {:induction false} WorkAtMost(r: Run, n: nat, each: nat)
    requires Shape(r) && n <= |r.s.pc| && forall t | 0 <= t < n :: 4 * r.ret[t] + Done(r.s.pc[t]) <= each
    ensures Work(r, n) <= n * each
  {
    if n > 0 {
      WorkAtMost(r, n - 1, each);
      assert (n - 1) * each + each == n * each;
    }
  }

  /** Episodes end: useful actions, which by NeverStuck never run out, are bounded by the episodes completed.
      A run with more than n (4k + 2) + k + 1 of them has completed more than k episodes. */
  lemma EpisodesEnd(n: nat, sched: seq<nat>, k: nat)
    requires Schedule(n, sched) && Exec(n, sched).useful > n * (4 * k + 2) + k + 1
    ensures Exec(n, sched).flips > k
    ensures forall t | 0 <= t < n :: Exec(n, sched).ret[t] >= k
  {
    var c := KeptRun(n, sched);
    var r := Exec(n, sched);
    assert forall t | 0 <= t < n :: InPlace(r.s.pc[t], r.inc[t], r.ret[t], r.flips);
    assert r.clears <= r.flips + 1;
    UsefulIsWork(n, sched);
    if r.flips <= k { WorkAtMost(r, n, 4 * k + 2); }
  }

  // ---------- the barrier as it stands in shared memory ----------

  class SharedBarrier {
    var count: int
    var gsense: int
    var pc: array<Pc>

    ghost function Now(): State
      reads this, pc
    {
      State(count, gsense, pc[..])
    }

    constructor (threads: nat)
      ensures Now() == Init(threads) && fresh(pc)
    {
      count, gsense := 0, 0;
      pc := new Pc[threads](i => Outside);
    }

    /** Reads and increments in one step. */
    method FetchInc() returns (odata: int)
      modifies this`count
      ensures odata == old(count) && count == old(count) + 1
    {
      odata := count;
      count := count + 1;
    }

    /** One access of thread t to the shared words; a thread that waits stays where it is. */
    method Act(t: nat)
      requires t < pc.Length
      modifies this`count, this`gsense, pc
      ensures Now() == Next(old(Now()), t)
    {
      match pc[t] {
        case Outside => pc[t] := Entered(Not(gsense));
        case Entered(lsense) =>
          var odata := FetchInc();
          if odata == pc.Length - 1 { pc[t] := Last(lsense); } else { pc[t] := Spinning(lsense); }
        case Last(lsense) =>
          count := 0;
          pc[t] := Cleared(lsense);
        case Cleared(lsense) =>
          gsense := lsense;
          pc[t] := Leaving;
        case Spinning(lsense) =>
          if lsense == gsense { pc[t] := Leaving; }
        case Leaving => pc[t] := Outside;
      }
    }
  }
}
