/**
 Changing a priority looks for one process to swap with and no further. This is
 exactly when that is enough to keep the scheduler fair.
 */
module SchedRenice {
  import opened Options
  import opened Sched
  import opened SchedFair

  /** Every processor but c runs a process no worse than `prio`. */
  predicate OthersBusy(s: State, c: int, prio: int) {
    forall d: nat | d < |s.flows| && d != c :: s.flows[d].Some? && Prio(s.procs, s.flows[d].value) <= prio
  }

  /** What has to be looked up before a ready process p is made better. A process v that loses its processor to p must
      have nowhere else to go; if none does, nobody of p's old priority may run behind p where p could. */
  predicate PromotesFairly(s: State, p: Pid, prio: int)
    requires QueueKept(s) && p in s.queue && prio < s.procs[p].prio
  {
    var r, k, other := s.procs[p], IndexOf(s.queue, p), Reprioritize(s, p, prio).1;
    if other.Some? then var v := s.procs[other.value]; v.pinned || OthersBusy(s, v.cpu, v.prio)
    else forall i | k < i < |s.queue| && s.procs[s.queue[i]].prio == r.prio :: !Evictable(s, s.queue[i], r)
  }

  /** What has to be looked up before a running process p is made worse. Nobody of p's old priority may wait in front of
      p for p's processor unless one as good gets it; and if p loses it, p must have nowhere else to go. */
  predicate DemotesFairly(s: State, p: Pid, prio: int)
    requires QueueKept(s) && p in s.queue && prio > s.procs[p].prio
  {
    var r, k, other := s.procs[p], IndexOf(s.queue, p), Reprioritize(s, p, prio).1;
    && ((other.Some? && s.procs[other.value].prio == r.prio)
        || forall i | 0 <= i < k && s.procs[s.queue[i]].prio == r.prio ::
             !(Is(s, s.queue[i], ReadyState) && s.procs[s.queue[i]].MayUse(r.cpu)))
    && (other.Some? ==> r.pinned || OthersBusy(s, r.cpu, prio))
  }

  predicate RenicesFairly(s: State, p: Pid, prio: int)
    requires QueueKept(s) && p in s.procs
  {
    && (Is(s, p, ReadyState) && prio < s.procs[p].prio ==> PromotesFairly(s, p, prio))
    && (Is(s, p, RunningState) && prio > s.procs[p].prio ==> DemotesFairly(s, p, prio))
  }

  // ---------- nobody swaps ----------

  /** p's priority is all that changes: p is compared anew with those on the other side. */
  lemma OnlyPrioFair(s: State, s': State, p: Pid, prio: int)
    requires Fair(s) && p in s.procs
    requires s'.procs == s.procs[p := s.procs[p].(prio := prio)] && s'.flows == s.flows
    ensures Fair(s') <==>
      && (Is(s, p, ReadyState) ==>
            forall q | Is(s, q, RunningState) && s.procs[p].MayUse(s.procs[q].cpu) :: s.procs[q].prio <= prio)
      && (Is(s, p, RunningState) ==>
            forall r | Is(s, r, ReadyState) && s.procs[r].MayUse(s.procs[p].cpu) :: prio <= s.procs[r].prio)
  {
    assert forall x | x != p :: Is(s', x, RunningState) <==> Is(s, x, RunningState);
    assert forall x | x != p :: Is(s', x, ReadyState) <==> Is(s, x, ReadyState);
    assert Is(s', p, ReadyState) <==> Is(s, p, ReadyState);
    assert Is(s', p, RunningState) <==> Is(s, p, RunningState);
  }

  // ---------- two processes swap ----------

  /** a takes processor c from b. */
  predicate Swapped(s: State, s': State, a: Pid, b: Pid, c: int, prioA: int, prioB: int)
    requires a in s.procs && b in s.procs
  {
    && s'.procs.Keys == s.procs.Keys && (forall x | x in s.procs && x != a && x != b :: s'.procs[x] == s.procs[x])
    && s'.procs[a].state.RunningState? && s'.procs[a].cpu == c && s'.procs[a].prio == prioA
    && s'.procs[b] == s.procs[b].(state := ReadyState, prio := prioB)
    && 0 <= c < |s.flows| && s'.flows == s.flows[c := Some(a)]
  }

  /** After a swap, b has to be compared with the other processors, and a with those that wait for its own. */
  lemma SwappedFair(s: State, s': State, a: Pid, b: Pid, c: int, prioA: int, prioB: int)
    requires CpusKept(s) && PinsKept(s) && Fair(s) && Is(s, a, ReadyState) && Is(s, b, RunningState) && s.procs[b].cpu == c
    requires Swapped(s, s', a, b, c, prioA, prioB) && prioA <= prioB
    ensures Fair(s') <==>
      && (s.procs[b].pinned || OthersBusy(s, c, prioB))
      && (forall r | Is(s, r, ReadyState) && r != a && s.procs[r].MayUse(c) :: prioA <= s.procs[r].prio)
  {
    if Fair(s') { SwappedFairOnly(s, s', a, b, c, prioA, prioB); }
    if (s.procs[b].pinned || OthersBusy(s, c, prioB))
       && (forall r | Is(s, r, ReadyState) && r != a && s.procs[r].MayUse(c) :: prioA <= s.procs[r].prio)
    {
      SwappedFairIf(s, s', a, b, c, prioA, prioB);
    }
  }

  lemma SwappedFairOnly(s: State, s': State, a: Pid, b: Pid, c: int, prioA: int, prioB: int)
    requires CpusKept(s) && Fair(s') && Is(s, a, ReadyState) && Is(s, b, RunningState) && s.procs[b].cpu == c
    requires Swapped(s, s', a, b, c, prioA, prioB)
    ensures s.procs[b].pinned || OthersBusy(s, c, prioB)
    ensures forall r | Is(s, r, ReadyState) && r != a && s.procs[r].MayUse(c) :: prioA <= s.procs[r].prio
  {
    assert Is(s', b, ReadyState) && Is(s', a, RunningState);
    if !s.procs[b].pinned {
      forall d: nat | d < |s.flows| && d != c
        ensures s.flows[d].Some? && Prio(s.procs, s.flows[d].value) <= prioB
      {
        assert s'.flows[d] == s.flows[d] && s'.procs[b].MayUse(d);
        var q := s.flows[d].value;
        assert Is(s, q, RunningState) && s.procs[q].cpu == d;
        assert Is(s', q, RunningState);
      }
    }
    forall r | Is(s, r, ReadyState) && r != a && s.procs[r].MayUse(c) ensures prioA <= s.procs[r].prio {
      assert Is(s', r, ReadyState);
    }
  }

  lemma SwappedFairIf(s: State, s': State, a: Pid, b: Pid, c: int, prioA: int, prioB: int)
    requires CpusKept(s) && PinsKept(s) && Fair(s) && Is(s, a, ReadyState) && Is(s, b, RunningState) && s.procs[b].cpu == c
    requires Swapped(s, s', a, b, c, prioA, prioB) && prioA <= prioB
    requires s.procs[b].pinned || OthersBusy(s, c, prioB)
    requires forall r | Is(s, r, ReadyState) && r != a && s.procs[r].MayUse(c) :: prioA <= s.procs[r].prio
    ensures Fair(s')
  {
    forall r, q | Is(s', r, ReadyState) && Is(s', q, RunningState) && s'.procs[r].prio < s'.procs[q].prio
      ensures !s'.procs[r].MayUse(s'.procs[q].cpu)
    {
      if q != a {
        assert Is(s, q, RunningState) && q != b && s.procs[q].cpu != c;
        if r != b { assert Is(s, r, ReadyState); }
      } else if r != b {
        assert Is(s, r, ReadyState);
      }
    }
    forall r, d: nat | Is(s', r, ReadyState) && d < |s'.flows| && s'.flows[d].None? ensures !s'.procs[r].MayUse(d) {
      if r != b { assert Is(s, r, ReadyState); }
    }
  }

  // ---------- what setPriority does ----------

  lemma KeepsPlace(s: State, p: Pid, prio: int)
    requires Kept(s) && p in s.procs && prio != s.procs[p].prio
    requires !Is(s, p, ReadyState) || prio > s.procs[p].prio || Reprioritize(s, p, prio).1.None?
    requires !Is(s, p, RunningState) || prio < s.procs[p].prio || Reprioritize(s, p, prio).1.None?
    ensures var s' := SetPriority(s, p, prio);
      s'.procs == s.procs[p := s.procs[p].(prio := prio)] && s'.flows == s.flows
  {
    hide Kept, Move, Victim, PassedReady, InsertPos, DemoteEnd, IndexOf;
  }

  lemma Promotes(s: State, p: Pid, prio: int)
    requires Kept(s) && Is(s, p, ReadyState) && prio < s.procs[p].prio && Reprioritize(s, p, prio).1.Some?
    ensures var v := Reprioritize(s, p, prio).1.value;
      && Evictable(s, v, s.procs[p]) && s.procs[v].prio > prio
      && Swapped(s, SetPriority(s, p, prio), p, v, s.procs[v].cpu, prio, s.procs[v].prio)
  {
    hide QueueKept, Sorted, PinsKept, Move, InsertPos, DemoteEnd, IndexOf, PassedReady, Victim;
    var v := Reprioritize(s, p, prio).1.value;
    assert Evictable(WithPrio(s, p, prio), v, s.procs[p].(prio := prio));
  }

  lemma Demotes(s: State, p: Pid, prio: int)
    requires Kept(s) && Is(s, p, RunningState) && prio > s.procs[p].prio && Reprioritize(s, p, prio).1.Some?
    ensures var w := Reprioritize(s, p, prio).1.value;
      && Is(s, w, ReadyState) && s.procs[w].MayUse(s.procs[p].cpu)
      && Swapped(s, SetPriority(s, p, prio), w, p, s.procs[p].cpu, s.procs[w].prio, prio)
  {
    hide QueueKept, Sorted, PinsKept, Move, InsertPos, DemoteEnd, IndexOf, Victim, PassedReady;
    var w := Reprioritize(s, p, prio).1.value;
    assert Is(WithPrio(s, p, prio), w, ReadyState) && WithPrio(s, p, prio).procs[w].MayUse(s.procs[p].cpu);
    assert w != p && s.procs[w] == WithPrio(s, p, prio).procs[w];
  }

  // ---------- whom the search passes ----------

  lemma Place(s: State, p: Pid) returns (i: nat)
    requires QueueKept(s) && p in s.procs && s.procs[p].state.Runnable()
    ensures i < |s.queue| && s.queue[i] == p
  {
    i := IndexOf(s.queue, p);
  }

  /** With nobody to swap with, only a process of p's old priority can be worse than p and run where p could. */
  lemma PromotedAlone(s: State, p: Pid, prio: int)
    requires Kept(s) && Fair(s) && Is(s, p, ReadyState) && p in s.queue && prio < s.procs[p].prio
    requires Reprioritize(s, p, prio).1.None?
    ensures PromotesFairly(s, p, prio) <==>
      forall q | Is(s, q, RunningState) && s.procs[p].MayUse(s.procs[q].cpu) :: s.procs[q].prio <= prio
  {
    var k, r, s0 := IndexOf(s.queue, p), s.procs[p], WithPrio(s, p, prio);
    forall q | Is(s, q, RunningState) && r.MayUse(s.procs[q].cpu)
      ensures s.procs[q].prio <= prio || exists i :: k < i < |s.queue| && s.queue[i] == q && s.procs[q].prio == r.prio
    {
      var i := Place(s, q);
      if i < k {
        assert s.queue[..k][i] == q;
        PassedNoVictim(s, p, prio, q);
      } else {
        assert Prio(s.procs, s.queue[k]) <= Prio(s.procs, s.queue[i]);
      }
    }
  }

  lemma PassedNoVictim(s: State, p: Pid, prio: int, q: Pid)
    requires Kept(s) && Is(s, p, ReadyState) && p in s.queue && q in s.queue[..IndexOf(s.queue, p)]
    requires Known(WithPrio(s, p, prio), IndexOf(s.queue, p)) && Evictable(s, q, s.procs[p])
    requires Victim(WithPrio(s, p, prio), IndexOf(s.queue, p), s.procs[p].(prio := prio)).None?
    ensures s.procs[q].prio <= prio
  {
    var k, s0 := IndexOf(s.queue, p), WithPrio(s, p, prio);
    assert forall i | 0 <= i < k :: s.queue[i] != p;
    assert forall i, j | 0 <= i < j < k :: Prio(s0.procs, s.queue[i]) <= Prio(s0.procs, s.queue[j]) by {
      forall i, j | 0 <= i < j < k ensures Prio(s0.procs, s.queue[i]) <= Prio(s0.procs, s.queue[j]) {
        assert Prio(s.procs, s.queue[i]) <= Prio(s.procs, s.queue[j]);
      }
    }
    NoVictim(s0, k, s.procs[p].(prio := prio), q);
  }

  /** What a demotion passes over: no ready process that may use c, up to the first one. */
  lemma {:induction false} PassedFirst(s: State, n: nat, e: nat, c: int) returns (j: nat)
    requires Known(s, |s.queue|) && n <= e <= |s.queue|
    ensures n <= j <= e && (PassedReady(s, n, e, c).None? <==> j == e)
    ensures j < e ==> PassedReady(s, n, e, c) == Some(s.queue[j])
    ensures forall i | n <= i < j :: !(Is(s, s.queue[i], ReadyState) && s.procs[s.queue[i]].MayUse(c))
    decreases e - n
  {
    if n == e || (Is(s, s.queue[n], ReadyState) && s.procs[s.queue[n]].MayUse(c)) {
      j := n;
    } else {
      j := PassedFirst(s, n + 1, e, c);
    }
  }

  /** Those behind p that wait for its processor are no better than the one p swaps with, or than p's new priority. */
  lemma BehindDemoted(s: State, p: Pid, prio: int, i: nat)
    requires Kept(s) && Is(s, p, RunningState) && p in s.queue && prio > s.procs[p].prio
    requires IndexOf(s.queue, p) < i < |s.queue| && Is(s, s.queue[i], ReadyState) && s.procs[s.queue[i]].MayUse(s.procs[p].cpu)
    ensures var other := Reprioritize(s, p, prio).1;
      Least(s, other, prio) <= s.procs[s.queue[i]].prio
  {
    hide CpusKept, PinsKept, Sorted, QueueKept, Distinct, Move;
    var k, c, s0 := IndexOf(s.queue, p), s.procs[p].cpu, WithPrio(s, p, prio);
    WithPrioKnown(s, p, prio);
    var e := DemoteEnd(s0, k + 1, prio);
    var j := PassedFirst(s0, k + 1, e, c);
    assert Is(s0, s.queue[i], ReadyState) && s0.procs[s.queue[i]].MayUse(c);
    if j < e {
      SortedAt(s, j, i);
    } else {
      SortedAt(s, e, i);
      assert Prio(s0.procs, s.queue[e]) > prio;
    }
  }

  /** The priority that p's processor is left with. */
  function Least(s: State, other: Option<Pid>, prio: int): int {
    if other.Some? then Prio(s.procs, other.value) else prio
  }

  /** So whoever is better waits in front of p and has p's old priority. */
  lemma Demoted(s: State, p: Pid, prio: int)
    requires Kept(s) && Fair(s) && Is(s, p, RunningState) && p in s.queue && prio > s.procs[p].prio
    ensures var other := Reprioritize(s, p, prio).1;
      (forall r | Is(s, r, ReadyState) && s.procs[r].MayUse(s.procs[p].cpu) :: Least(s, other, prio) <= s.procs[r].prio) <==>
        || Least(s, other, prio) <= s.procs[p].prio
        || forall i | 0 <= i < IndexOf(s.queue, p) && s.procs[s.queue[i]].prio == s.procs[p].prio ::
             !(Is(s, s.queue[i], ReadyState) && s.procs[s.queue[i]].MayUse(s.procs[p].cpu))
  {
    hide Reprioritize, PinsKept, Distinct, Least;
    var k := IndexOf(s.queue, p);
    forall r | Is(s, r, ReadyState) && s.procs[r].MayUse(s.procs[p].cpu)
      ensures Least(s, Reprioritize(s, p, prio).1, prio) <= s.procs[r].prio
        || exists i :: 0 <= i < k && s.queue[i] == r && s.procs[r].prio == s.procs[p].prio
    {
      var i := Place(s, r);
      if i > k {
        BehindDemoted(s, p, prio, i);
      } else {
        assert Prio(s.procs, s.queue[i]) <= Prio(s.procs, s.queue[k]);
      }
    }
  }

  // ---------- the exact condition ----------

  lemma PromotionFairExactly(s: State, p: Pid, prio: int)
    requires Kept(s) && Fair(s) && Is(s, p, ReadyState) && p in s.queue && prio < s.procs[p].prio
    ensures Fair(SetPriority(s, p, prio)) <==> PromotesFairly(s, p, prio)
  {
    hide SetPriority, Reprioritize, Swapped, OthersBusy, QueueKept;
    var s' := SetPriority(s, p, prio);
    var other := Reprioritize(s, p, prio).1;
    if other.Some? {
      Promotes(s, p, prio);
      var v := other.value;
      SwappedFair(s, s', p, v, s.procs[v].cpu, prio, s.procs[v].prio);
    } else {
      KeepsPlace(s, p, prio);
      OnlyPrioFair(s, s', p, prio);
      PromotedAlone(s, p, prio);
    }
  }

  lemma DemotionFairExactly(s: State, p: Pid, prio: int)
    requires Kept(s) && Fair(s) && Is(s, p, RunningState) && p in s.queue && prio > s.procs[p].prio
    ensures Fair(SetPriority(s, p, prio)) <==> DemotesFairly(s, p, prio)
  {
    hide SetPriority, Reprioritize, Swapped, OthersBusy, QueueKept;
    var s' := SetPriority(s, p, prio);
    var other := Reprioritize(s, p, prio).1;
    Demoted(s, p, prio);
    if other.Some? {
      Demotes(s, p, prio);
      var w := other.value;
      assert s.procs[w].prio >= s.procs[p].prio;
      DemotesAtMost(s, p, prio);
      SwappedFair(s, s', w, p, s.procs[p].cpu, s.procs[w].prio, prio);
    } else {
      KeepsPlace(s, p, prio);
      OnlyPrioFair(s, s', p, prio);
    }
  }

  lemma PassedAtMost(s: State, n: nat, e: nat, c: int, prio: int)
    requires Known(s, |s.queue|) && n <= e <= |s.queue| && PassedReady(s, n, e, c).Some?
    requires forall i | n <= i < e :: s.procs[s.queue[i]].prio <= prio
    ensures s.procs[PassedReady(s, n, e, c).value].prio <= prio
  {
    var j := PassedFirst(s, n, e, c);
  }

  lemma DemotesAtMost(s: State, p: Pid, prio: int)
    requires Kept(s) && Is(s, p, RunningState) && p in s.queue && prio > s.procs[p].prio && Reprioritize(s, p, prio).1.Some?
    ensures var w := Reprioritize(s, p, prio).1.value; w in s.procs && s.procs[w].prio <= prio
  {
    hide CpusKept, PinsKept, Sorted, QueueKept, Distinct, Move;
    var k, s0 := IndexOf(s.queue, p), WithPrio(s, p, prio);
    WithPrioKnown(s, p, prio);
    var e := DemoteEnd(s0, k + 1, prio);
    forall i | k + 1 <= i < e ensures s0.procs[s.queue[i]].prio <= prio {
      SortedAt(s, i, e - 1);
      assert Prio(s0.procs, s.queue[e - 1]) <= prio;
    }
    PassedAtMost(s0, k + 1, e, s.procs[p].cpu, prio);
  }

  /** With pinned processes about, a change of priority keeps the scheduler fair exactly if the look-ups above say so. */
  lemma SetPriorityFairExactly(s: State, p: Pid, prio: int)
    requires Kept(s) && Fair(s) && p in s.procs
    ensures Fair(SetPriority(s, p, prio)) <==> RenicesFairly(s, p, prio)
  {
    assert prio == s.procs[p].prio ==> SetPriority(s, p, prio) == s;
    hide SetPriority, Reprioritize, PromotesFairly, DemotesFairly, CpusKept, PinsKept, Fair;
    if prio == s.procs[p].prio {
    } else if Is(s, p, ReadyState) && prio < s.procs[p].prio {
      PromotionFairExactly(s, p, prio);
    } else if Is(s, p, RunningState) && prio > s.procs[p].prio {
      DemotionFairExactly(s, p, prio);
    } else {
      KeepsPlace(s, p, prio);
      ElsewhereFair(s, SetPriority(s, p, prio), p, prio);
    }
  }

  /** A process that neither runs nor waits, one made better while it runs or worse while it waits, does no harm. */
  lemma ElsewhereFair(s: State, s': State, p: Pid, prio: int)
    requires Fair(s) && p in s.procs && CpusKept(s)
    requires s'.procs == s.procs[p := s.procs[p].(prio := prio)] && s'.flows == s.flows
    requires !Is(s, p, ReadyState) || prio >= s.procs[p].prio
    requires !Is(s, p, RunningState) || prio <= s.procs[p].prio
    ensures Fair(s')
  {
    OnlyPrioFair(s, s', p, prio);
  }
}
