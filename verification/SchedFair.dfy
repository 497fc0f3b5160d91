/**
 What the scheduler guarantees with pinned processes about: no ready process is
 strictly better than a running one whose processor it may use, and none may use an
 idle processor. Making a process runnable takes the processor from at most one other for good.
 */
module SchedFair {
  import opened Options
  import opened Sched

  ghost predicate NoInversion(s: State) {
    forall r, q | Is(s, r, ReadyState) && Is(s, q, RunningState) && s.procs[r].prio < s.procs[q].prio ::
      !s.procs[r].MayUse(s.procs[q].cpu)
  }

  ghost predicate NoWaste(s: State) {
    forall r, c: nat | Is(s, r, ReadyState) && c < |s.flows| && s.flows[c].None? :: !s.procs[r].MayUse(c)
  }

  ghost predicate Fair(s: State) {
    NoInversion(s) && NoWaste(s)
  }

  /** No victim means nobody to evict: every running process r could replace is at least as good as r. */
  lemma {:induction false} NoVictim(s: State, n: nat, r: Proc, w: Pid)
    requires Known(s, n) && Victim(s, n, r).None?
    requires forall i, j | 0 <= i < j < n :: Prio(s.procs, s.queue[i]) <= Prio(s.procs, s.queue[j])
    requires w in s.queue[..n] && Evictable(s, w, r)
    ensures s.procs[w].prio <= r.prio
    decreases n
  {
    var i :| 0 <= i < n && s.queue[i] == w;
    if s.procs[s.queue[n - 1]].prio <= r.prio {
      assert Prio(s.procs, s.queue[i]) <= Prio(s.procs, s.queue[n - 1]);
    } else {
      assert i < n - 1;
      assert w == s.queue[..n - 1][i];
      NoVictim(s, n - 1, r, w);
    }
  }

  /** The victim is the last in the queue of those that r could replace, so none of them is worse. */
  lemma {:induction false} VictimIsWorst(s: State, n: nat, r: Proc, w: Pid)
    requires Known(s, n) && Sorted(s.procs, s.queue) && Victim(s, n, r).Some?
    requires w in s.queue[..n] && Evictable(s, w, r)
    ensures s.procs[w].prio <= s.procs[Victim(s, n, r).value].prio
    decreases n
  {
    var i :| 0 <= i < n && s.queue[i] == w;
    if Evictable(s, s.queue[n - 1], r) {
      assert Prio(s.procs, s.queue[i]) <= Prio(s.procs, s.queue[n - 1]);
    } else {
      assert w == s.queue[..n - 1][i];
      VictimIsWorst(s, n - 1, r, w);
    }
  }

  lemma RunningIsQueued(s: State, w: Pid)
    requires Kept(s) && Is(s, w, RunningState)
    ensures w in s.queue[..|s.queue|]
  {
    assert s.queue[..|s.queue|] == s.queue;
  }

  // ---------- the three ends of makeRunnable ----------

  lemma FairGrab(s: State, p: Pid, c: nat)
    requires Kept(s) && Fair(s) && Is(s, p, InvalidState) && c < |s.flows| && s.flows[c].None? && s.procs[p].MayUse(c)
    ensures Fair(SwitchIn(BecomeReady(s, p), c, p))
  {
  }

  lemma FairWait(s: State, p: Pid)
    requires Kept(s) && Fair(s) && Is(s, p, InvalidState)
    requires FreeCpu(s, s.procs[p]).None? && Victim(s, |s.queue|, s.procs[p]).None?
    ensures Fair(BecomeReady(s, p))
  {
    forall w | Is(s, w, RunningState) && s.procs[p].MayUse(s.procs[w].cpu) ensures s.procs[w].prio <= s.procs[p].prio {
      RunningIsQueued(s, w);
      NoVictim(s, |s.queue|, s.procs[p], w);
    }
    FairWithWaiting(s, BecomeReady(s, p), p);
  }

  /** Fairness looks only at processes and processors: here p waits, */
  lemma FairWithWaiting(s: State, s': State, p: Pid)
    requires Fair(s) && Is(s, p, InvalidState)
    requires s'.procs == s.procs[p := s.procs[p].(state := ReadyState)] && s'.flows == s.flows
    requires forall w | Is(s, w, RunningState) && s.procs[p].MayUse(s.procs[w].cpu) :: s.procs[w].prio <= s.procs[p].prio
    requires forall c: nat | c < |s.flows| && s.flows[c].None? :: !s.procs[p].MayUse(c)
    ensures Fair(s')
  {
  }

  /** and here p has taken the place of the worse process v. */
  lemma FairWithReplaced(s: State, s': State, p: Pid, v: Pid, r: Proc)
    requires CpusKept(s) && Fair(s) && Is(s, v, RunningState) && p in s.procs && p != v
    requires s.procs[p].prio < s.procs[v].prio && r.state.RunningState? && r.cpu == s.procs[v].cpu && r.prio == s.procs[p].prio
    requires s'.procs == s.procs[p := r][v := s.procs[v].(state := InvalidState)]
    requires s'.flows == s.flows[s.procs[v].cpu := Some(p)]
    ensures Fair(s')
  {
  }

  lemma EvictEffect(s: State, p: Pid, v: Pid)
    requires QueueKept(s) && Is(s, p, InvalidState) && Evictable(s, v, s.procs[p]) && 0 <= s.procs[v].cpu < |s.flows|
    requires v in BecomeReady(s, p).queue
    ensures var s2 := Evict(BecomeReady(s, p), v, p); var r := s.procs[p];
      && s2.procs == s.procs[p := r.(state := RunningState, cpu := s.procs[v].cpu, pinned := r.pinned || !r.migrable)]
                            [v := s.procs[v].(state := InvalidState)]
      && s2.flows == s.flows[s.procs[v].cpu := Some(p)]
  {
    hide Insert, InsertPos, IndexOf, RemoveAt, QueueKept;
  }

  lemma FairEvict(s: State, p: Pid, v: Pid)
    requires Kept(s) && Fair(s) && Is(s, p, InvalidState)
    requires v in s.queue && Evictable(s, v, s.procs[p]) && s.procs[v].prio > s.procs[p].prio
    ensures var s1 := BecomeReady(s, p); 0 <= s1.procs[v].cpu < |s1.flows| && v in s1.queue && Fair(Evict(s1, v, p))
  {
    QueueInsertQueue(s, p);
    EvictEffect(s, p, v);
    var s2 := Evict(BecomeReady(s, p), v, p);
    FairWithReplaced(s, s2, p, v, s2.procs[p]);
  }

  lemma {:induction false} MakeRunnableFair(s: State, p: Pid)
    requires Kept(s) && Fair(s) && Is(s, p, InvalidState)
    ensures Fair(MakeRunnable(s, p))
    decreases |Worse(s, s.procs[p].prio)|
  {
    QueueInsertKept(s, p);
    var s1 := BecomeReady(s, p);
    var v := Victim(s, |s.queue|, s.procs[p]);
    var c := FreeCpu(s1, s.procs[p]);
    if c.Some? {
      FairGrab(s, p, c.value);
    } else if v.Some? {
      EvictionShrinks(s, p, v.value);
      FairEvict(s, p, v.value);
      MakeRunnableFair(Evict(s1, v.value, p), v.value);
    } else {
      FairWait(s, p);
    }
  }

  // ---------- makeNonRunnable ----------

  /** The process fetched from the queue is the best of those that may use the processor. */
  lemma {:induction false} QueueGetIsBest(s: State, c: int, n: nat, r: Pid)
    requires QueueKept(s) && Sorted(s.procs, s.queue) && n <= |s.queue|
    requires r in s.queue[n..] && Is(s, r, ReadyState) && s.procs[r].MayUse(c)
    ensures QueueGet(s, c, n).Some? && s.procs[QueueGet(s, c, n).value].prio <= s.procs[r].prio
    decreases |s.queue| - n
  {
    var i :| n <= i < |s.queue| && s.queue[i] == r;
    if Is(s, s.queue[n], ReadyState) && s.procs[s.queue[n]].MayUse(c) {
      assert Prio(s.procs, s.queue[n]) <= Prio(s.procs, s.queue[i]);
    } else {
      assert r == s.queue[n + 1..][i - n - 1];
      QueueGetIsBest(s, c, n + 1, r);
    }
  }

  lemma RemovedReadyFair(s: State, p: Pid)
    requires Kept(s) && Fair(s) && Is(s, p, ReadyState) && p in s.queue
    ensures Fair(BecomeNonReady(s, p))
  {
  }

  /** With p gone from processor c, whoever may use c has to be compared with its new occupant. */
  lemma FairWithRefilled(s: State, s2: State, s': State, c: nat, next: Option<Pid>)
    requires CpusKept(s) && Fair(s) && c < |s.flows|
    requires forall x | x in s2.procs :: x in s.procs && (s2.procs[x] == s.procs[x] || s2.procs[x].state.InvalidState?)
    requires s2.flows == s.flows[c := None]
    requires forall x | Is(s2, x, RunningState) :: s2.procs[x].cpu != c
    requires next.None? ==> s' == s2 && forall r | Is(s2, r, ReadyState) :: !s2.procs[r].MayUse(c)
    requires next.Some? ==>
      && Is(s2, next.value, ReadyState) && s2.procs[next.value].MayUse(c) && s' == SwitchIn(s2, c, next.value)
      && forall r | Is(s2, r, ReadyState) && s2.procs[r].MayUse(c) :: s2.procs[next.value].prio <= s2.procs[r].prio
    ensures Fair(s')
  {
  }

  lemma RefillFair(s: State, p: Pid)
    requires Kept(s) && Fair(s) && Is(s, p, RunningState)
    ensures Fair(MakeNonRunnable(s, p))
  {
    SwitchOutKept(s, p);
    var c := s.procs[p].cpu;
    var s1 := SwitchOut(s, c, p);
    QueueRemoveKept(s1, p);
    var s2 := BecomeNonReady(s1, p);
    var next := QueueGet(s2, c, 0);
    forall r | Is(s2, r, ReadyState) && s2.procs[r].MayUse(c)
      ensures next.Some? && s2.procs[next.value].prio <= s2.procs[r].prio
    {
      assert s2.queue[0..] == s2.queue;
      QueueGetIsBest(s2, c, 0, r);
    }
    forall x | Is(s2, x, RunningState) ensures s2.procs[x].cpu != c {
      assert x != p && Is(s, x, RunningState);
    }
    FairWithRefilled(s, s2, MakeNonRunnable(s, p), c, next);
  }

  lemma MakeNonRunnableFair(s: State, p: Pid)
    requires Kept(s) && Fair(s) && p in s.procs && s.procs[p].state.Runnable()
    ensures Fair(MakeNonRunnable(s, p))
  {
    if s.procs[p].state.RunningState? { RefillFair(s, p); } else { RemovedReadyFair(s, p); }
  }

  // ---------- how far an eviction spreads ----------

  ghost predicate Stopped(s: State, s': State, x: Pid) {
    Is(s, x, RunningState) && !Is(s', x, RunningState)
  }

  /** p runs and at most one process, worse than p, lost its processor; or p waits and nobody did. */
  ghost predicate OneMakesRoom(s: State, s': State, p: Pid)
    requires p in s.procs
  {
    && (Is(s', p, RunningState) || Is(s', p, ReadyState))
    && (forall x, y | Stopped(s, s', x) && Stopped(s, s', y) :: x == y)
    && (forall x | Stopped(s, s', x) :: s.procs[x].prio > s.procs[p].prio && Is(s', p, RunningState))
  }

  lemma EvictionStops(s: State, s2: State, s': State, p: Pid, v: Pid)
    requires Is(s, p, InvalidState) && Is(s, v, RunningState) && s.procs[v].prio > s.procs[p].prio
    requires v in s2.procs && s2.procs[v].prio == s.procs[v].prio
    requires forall x :: Is(s2, x, RunningState) <==> x == p || (x != v && Is(s, x, RunningState))
    requires forall x | x in s.procs :: x in s2.procs && s2.procs[x].prio == s.procs[x].prio
    requires OneMakesRoom(s2, s', v)
    ensures OneMakesRoom(s, s', p)
  {
    assert !Stopped(s2, s', p);
    forall x | Stopped(s, s', x) && x != v ensures Stopped(s2, s', x) {}
  }

  /** An eviction as the recursion sees it. */
  lemma EvictionSeen(s: State, p: Pid, v: Pid)
    requires QueueKept(s) && Is(s, p, InvalidState) && Evictable(s, v, s.procs[p]) && 0 <= s.procs[v].cpu < |s.flows|
    requires v in BecomeReady(s, p).queue
    ensures var s2 := Evict(BecomeReady(s, p), v, p);
      && v in s2.procs && s2.procs[v].prio == s.procs[v].prio
      && (forall x :: Is(s2, x, RunningState) <==> x == p || (x != v && Is(s, x, RunningState)))
      && (forall x | x in s.procs :: x in s2.procs && s2.procs[x].prio == s.procs[x].prio)
  {
    EvictEffect(s, p, v);
  }

  lemma NobodyStops(s: State, p: Pid)
    requires Kept(s) && Is(s, p, InvalidState)
    requires FreeCpu(BecomeReady(s, p), s.procs[p]).Some? || Victim(s, |s.queue|, s.procs[p]).None?
    ensures OneMakesRoom(s, MakeRunnable(s, p), p)
  {
    hide Distinct, Sorted, Insert, InsertPos, IndexOf;
    QueueInsertKept(s, p);
    hide Kept;
    forall x ensures !Stopped(s, MakeRunnable(s, p), x) {}
  }

  /** However far evictions spread, making p runnable takes the processor from at most one process for good. */
  lemma {:induction false} AtMostOneStops(s: State, p: Pid)
    requires Kept(s) && Is(s, p, InvalidState)
    ensures OneMakesRoom(s, MakeRunnable(s, p), p)
    decreases |Worse(s, s.procs[p].prio)|
  {
    hide Distinct, Sorted, Insert, RemoveAt, InsertPos, IndexOf, OneMakesRoom, Worse;
    QueueInsertKept(s, p);
    var v := Victim(s, |s.queue|, s.procs[p]);
    if FreeCpu(BecomeReady(s, p), s.procs[p]).None? && v.Some? {
      EvictionShrinks(s, p, v.value);
      EvictionSeen(s, p, v.value);
      var s2 := Evict(BecomeReady(s, p), v.value, p);
      AtMostOneStops(s2, v.value);
      hide Evict;
      EvictionStops(s, s2, MakeRunnable(s2, v.value), p, v.value);
      assert OneMakesRoom(s, MakeRunnable(s, p), p);
    } else {
      NobodyStops(s, p);
    }
  }
}
