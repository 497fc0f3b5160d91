/**
 How far each event brings an instruction, and in which order: retirement, the lists of those
 that wait, and the loads that take their word from a store of their own context.
 */
module WakeupOrder {
  import opened Options
  import opened Wakeup
  import opened WakeupRuns

  // ---------- what an event changes ----------

  /** The flags of instruction i after an event it was there for. */
  predicate FlagsAfter(s: State, e: Event, i: nat, x': Inst)
    requires Shape(s) && i < |s.insts|
  {
    var x := s.insts[i];
    var done := Enabled(s, e);
    && x'.executed == (x.executed || (done && e == Executed(i)))
    && x'.retired == (x.retired || (done && e == Retired(i)))
    && x'.gone == (x.gone || (done && (e == Performed(i) || (e == Retired(i) && !s.descs[i].kind.Store?))))
    && x'.forwarded == x.forwarded
  }

  lemma ForwardedExecute(s: State, p: nat, i: nat)
    requires Kept(s) && p < |s.insts| && i < |s.insts|
    ensures Execute(s, p).insts[i].forwarded == s.insts[i].forwarded
  {
    hide Execute, InstsRight, Linked, AliasRight, StoresRight, Frees;
    ExecuteAt(s, p, i);
  }

  lemma ForwardedDestroy(s: State, p: nat, i: nat)
    requires Shape(s) && p < |s.insts| && i < |s.insts|
    ensures Destroy(s, p).insts[i].forwarded == s.insts[i].forwarded
  {
  }

  lemma FlagsRetire(s: State, p: nat, i: nat)
    requires Kept(s) && p < |s.insts| && s.insts[p].executed && i < |s.insts|
    ensures var x, x' := s.insts[i], Retire(s, p).insts[i];
      && x'.executed == x.executed && x'.forwarded == x.forwarded && x'.retired == (x.retired || i == p)
      && x'.gone == (x.gone || (i == p && !s.descs[p].kind.Store?))
  {
    LeftKept(s, p);
    hide Kept, Destroy;
    if !s.descs[p].kind.Store? {
      DestroyFlags(Left(s, p), p, i);
      ForwardedDestroy(Left(s, p), p, i);
    }
  }

  lemma EnabledMeans(s: State, e: Event)
    requires Shape(s) && Enabled(s, e)
    ensures !e.Rename? ==> e.p < |s.insts|
    ensures e.Retired? ==> s.insts[e.p].executed
    ensures e.Performed? ==> s.insts[e.p].retired && s.descs[e.p].kind.Store?
  {
  }

  lemma FlagsStep(s: State, e: Event, i: nat)
    requires Kept(s) && Shape(s) && i < |s.insts|
    ensures var s' := Step(s, e); i < |s'.insts| && FlagsAfter(s, e, i, s'.insts[i])
  {
    hide Kept, AddInst, Execute, Destroy, Retire;
    DescStep(s, e, i);
    if Enabled(s, e) {
      EnabledMeans(s, e);
      hide Enabled;
      match e {
        case Rename(d) => AddInstAt(s, d);
        case Executed(p) => ExecuteFlags(s, p, i); ForwardedExecute(s, p, i);
        case Retired(p) => FlagsRetire(s, p, i);
        case Performed(p) =>
          InstRight(s, p);
          DestroyFlags(s, p, i);
          ForwardedDestroy(s, p, i);
      }
    }
  }

  /** In every run, an event brings forward the instruction it is for, one stage, and no other; and renaming adds one
      instruction, as described, that is at no stage yet. */
  lemma FlagsExactly(events: seq<Event>, e: Event)
    ensures var s, s' := Exec(events), Step(Exec(events), e);
      && |s'.insts| >= |s.insts|
      && (forall i | 0 <= i < |s.insts| :: FlagsAfter(s, e, i, s'.insts[i]))
      && s'.descs == (if e.Rename? && Enabled(s, e) then s.descs + [e.d] else s.descs)
      && forall i | |s.insts| <= i < |s'.insts| ::
           !s'.insts[i].executed && !s'.insts[i].retired && !s'.insts[i].gone
  {
    KeptAlways(events);
    var s, s' := Exec(events), Step(Exec(events), e);
    OnlyRenameAdds(s, e);
    DescsStep(s, e);
    if e.Rename? && Enabled(s, e) { AddInstAt(s, e.d); }
    hide Kept, Exec, Step, FlagsAfter, Enabled;
    forall i | 0 <= i < |s.insts| ensures FlagsAfter(s, e, i, s'.insts[i]) { FlagsStep(s, e, i); }
  }

  lemma DescsStep(s: State, e: Event)
    requires Shape(s)
    ensures Step(s, e).descs == if e.Rename? && Enabled(s, e) then s.descs + [e.d] else s.descs
  {
  }

  // ---------- retirement ----------

  /** In every run the instructions of a core retire in program order, each after it executed. */
  lemma {:induction false} RetiresInOrder(events: seq<Event>, i: nat, j: nat)
    requires var s := Exec(events); i < j < |s.insts| && s.descs[i].core == s.descs[j].core && s.insts[j].retired
    ensures Exec(events).insts[i].retired && Exec(events).insts[i].executed
  {
    if events != [] {
      var before, e := events[..|events| - 1], events[|events| - 1];
      var s := Exec(before);
      FlagsExactly(before, e);
      KeptAlways(events);
      InstRight(Exec(events), i);
      hide Kept;
      if j < |s.insts| && s.insts[j].retired { RetiresInOrder(before, i, j); }
    }
  }

  // ---------- the lists ----------

  /** Those that wait for an instruction stand in program order; an instruction that needs it twice, first operand first. */
  ghost predicate InProgramOrder(q: seq<Dep>) {
    forall j, k | 0 <= j < k < |q| :: q[j].c < q[k].c || (q[j].c == q[k].c && !q[j].second && q[k].second)
  }

  ghost predicate ListsOrdered(s: State) {
    forall p | 0 <= p < |s.insts| :: InProgramOrder(s.insts[p].pending)
  }

  lemma PickedOrdered(f: seq<nat>, q: seq<Dep>, r: seq<Dep>)
    requires Picks(f, q, r) && InProgramOrder(q)
    ensures InProgramOrder(r)
  {
  }

  /** A store writes no register, so nobody waits for the same instruction both as a store and as a writer. */
  lemma AddedOrdered(s: State, d: Desc, p: nat)
    requires Kept(s) && d.Decoded() && p < |s.insts|
    ensures InProgramOrder(Added(s, d, p)) && forall dep | dep in Added(s, d, p) :: dep.c == |s.insts|
  {
    if StoreToAwait(s, d) == Some(p) && Found1(s, d) == Some(p) { StoreWritesNothing(s, d, p); }
  }

  lemma StoreWritesNothing(s: State, d: Desc, p: nat)
    requires Kept(s) && d.Decoded() && p < |s.insts| && StoreToAwait(s, d) == Some(p)
    ensures Found1(s, d) != Some(p)
  {
    assert Lookup(s.stores, d.kind.word) == Some(p);
    assert s.descs[p].kind.Store?;
    InstRight(s, p);
    hide InstsRight, Linked;
    var w := Writer(s.descs, |s.descs|, d.core, d.src1);
    assert Lookup(s.rat, (d.core, d.src1)) == if w.Some? && !s.insts[w.value].executed then w else None;
  }

  lemma RenamedOrdered(s: State, d: Desc, p: nat)
    requires Kept(s) && d.Decoded() && ListsOrdered(s) && p < |AddInst(s, d).insts|
    ensures InProgramOrder(AddInst(s, d).insts[p].pending)
  {
    AddInstAt(s, d);
    if p < |s.insts| {
      AddedOrdered(s, d, p);
      ListedBelow(s, p);
      hide Kept, AddInst, Added;
    }
  }

  lemma ListedBelow(s: State, p: nat)
    requires Kept(s) && p < |s.insts|
    ensures forall dep | dep in s.insts[p].pending :: dep.c < |s.insts|
  {
    forall dep | dep in s.insts[p].pending ensures dep.c < |s.insts| { assert LinkRight(s, p, dep); }
  }

  lemma ExecutedOrdered(s: State, p: nat, i: nat)
    requires Kept(s) && p < |s.insts| && i < |s.insts| && ListsOrdered(s)
    ensures InProgramOrder(Execute(s, p).insts[i].pending)
  {
    hide Execute, InstsRight, Linked, AliasRight, StoresRight, Given, Frees, Picks, InProgramOrder;
    ExecuteAt(s, p, i);
    GivenFlags(s.insts[i], Frees(s, p, i, false), Frees(s, p, i, true));
    if i == p {
      var f := StayingInOrder(s, p, |s.insts[p].pending|);
      PickedOrdered(f, s.insts[p].pending, Staying(s, p, |s.insts[p].pending|));
    }
  }

  lemma DestroyedOrdered(s: State, p: nat, i: nat)
    requires Kept(s) && p < |s.insts| && s.insts[p].executed && i < |s.insts| && ListsOrdered(s)
    ensures InProgramOrder(Destroy(s, p).insts[i].pending)
  {
    hide Destroy, InstsRight, Linked, AliasRight, StoresRight;
    DestroyFlags(s, p, i);
  }

  lemma OrderedStep(s: State, e: Event)
    requires Kept(s) && ListsOrdered(s)
    ensures ListsOrdered(Step(s, e))
  {
    OnlyRenameAdds(s, e);
    hide InstsRight, Linked, AliasRight, StoresRight, AddInst, Execute, Destroy, InProgramOrder;
    if Enabled(s, e) {
      var s' := Step(s, e);
      forall i | 0 <= i < |s'.insts| ensures InProgramOrder(s'.insts[i].pending) {
        match e {
          case Rename(d) => RenamedOrdered(s, d, i);
          case Executed(p) => ExecutedOrdered(s, p, i);
          case Retired(p) =>
            LeftKept(s, p);
            if !s.descs[p].kind.Store? { DestroyedOrdered(Left(s, p), p, i); }
          case Performed(p) => InstRight(s, p); DestroyedOrdered(s, p, i);
        }
      }
    }
  }

  /** In every run each list holds those that wait in program order, so an execution releases the oldest first. */
  lemma {:induction false} ListsInOrder(events: seq<Event>)
    ensures ListsOrdered(Exec(events))
  {
    if events != [] {
      ListsInOrder(events[..|events| - 1]);
      KeptAlways(events[..|events| - 1]);
      OrderedStep(Exec(events[..|events| - 1]), events[|events| - 1]);
    }
  }

  // ---------- forwarding ----------

  /** The store whose word load i takes, unless that retired before i was renamed. */
  ghost predicate TakesFrom(events: seq<Event>, i: nat, p: nat)
    requires i < |Exec(events).insts| && p < i
  {
    var s := Exec(events);
    s.descs[i].kind.Load? && Source(s.descs, i, true) == Some(p) && s.descs[p].ctx == s.descs[i].ctx && !RetiredFirst(events, i, p)
  }

  lemma RenameForwards(s: State, d: Desc)
    requires Kept(s) && d.Decoded()
    ensures var s', i := AddInst(s, d), |s.insts|;
      && i < |s'.insts|
      && s'.insts[i].forwarded ==
           (d.kind.Load? && var p := Source(s'.descs, i, true);
            p.Some? && s.descs[p.value].ctx == d.ctx && !s.insts[p.value].retired)
  {
    AddInstAt(s, d);
    if d.kind.Load? { LastStorePrefix(s.descs, d, |s.insts|, d.kind.word); }
    hide InstsRight, Linked, AliasRight, LastStore, Writer;
  }

  /** In every run a load is marked as forwarded exactly if the last store to its word is of its own context and had not
      retired when the load was renamed. */
  lemma {:induction false} ForwardedExactly(events: seq<Event>, i: nat)
    requires i < |Exec(events).insts|
    ensures Exec(events).insts[i].forwarded <==> exists p: nat :: p < i && TakesFrom(events, i, p)
  {
    var before, e := events[..|events| - 1], events[|events| - 1];
    var s, s' := Exec(before), Exec(events);
    KeptAlways(before);
    hide Kept, Source;
    if i < |s.insts| {
      ForwardedExactly(before, i);
      FlagsStep(s, e, i);
      SourceStep(s, e, i, true);
      forall p: nat | p < i ensures TakesFrom(events, i, p) <==> TakesFrom(before, i, p) {
        DescStep(s, e, i);
        DescStep(s, e, p);
        RetiredFirstSame(before, events, i, p);
      }
    } else {
      var d := JustRenamed(events, i);
      ForwardedAtRename(events, d, i);
    }
  }

  lemma ForwardedAtRename(events: seq<Event>, d: Desc, i: nat)
    requires |events| > 0 && Kept(Exec(events[..|events| - 1])) && d.Decoded() && i == |Exec(events[..|events| - 1]).insts|
    requires i < |Exec(events).insts| && Exec(events) == AddInst(Exec(events[..|events| - 1]), d)
    ensures Exec(events).insts[i].forwarded <==> exists p: nat :: p < i && TakesFrom(events, i, p)
  {
    var s, s' := Exec(events[..|events| - 1]), Exec(events);
    RenameForwards(s, d);
    assert s'.descs == s.descs + [d];
    hide Kept, Source, Exec, AddInst, RetiredFirst;
    var from := Source(s'.descs, i, true);
    if from.Some? {
      RetiredAtRename(events, d, i, from.value);
      assert s'.insts[i].forwarded <==> TakesFrom(events, i, from.value);
    }
  }

  lemma RetiredAtRename(events: seq<Event>, d: Desc, i: nat, p: nat)
    requires |events| > 0 && i == |Exec(events[..|events| - 1]).insts| && p < i
    requires Exec(events) == AddInst(Exec(events[..|events| - 1]), d)
    ensures RetiredFirst(events, i, p) <==> Exec(events[..|events| - 1]).insts[p].retired
  {
    var before := events[..|events| - 1];
    AddInstAt(Exec(before), d);
    RetiredFirstSame(before, events, i, p);
    assert before[..|before|] == before;
    if Exec(before).insts[p].retired { RetiredFirstIn(before, before, |before|, i, p); }
    if n :| 0 <= n <= |before| && RetiredBy(Exec(before[..n]), i, p) { RetiredStays(before, n, i, p); }
  }
}
