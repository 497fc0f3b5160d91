/**
 The wake-up network as the simulator runs it: one object whose instructions and tables
 are updated in place, with the lists of waiting instructions popped entry by entry.
 */
module WakeupSystem {
  import opened Options
  import W = Wakeup
  import opened Wakeup

  const NEW_INST := Inst([], false, false, 0, false, false, false, false, false, 0)

  /** An instruction that has got one operand it waited for. */
  function Taken(x: Inst, second: bool): Inst {
    x.(used1 := x.used1 && second, used2 := x.used2 && !second, nDeps := x.nDeps - 1,
       sends := if x.nDeps == 1 then x.sends + 1 else x.sends)
  }

  /** One entry further along the list: its instruction gets the operand unless the entry stays. */
  lemma WokenNext(s: State, p: nat, k: nat, i: nat)
    requires Kept(s) && p < |s.insts| && k < |s.insts[p].pending| && i < |s.insts|
    ensures var dep := s.insts[p].pending[k]; var x := Woken(s, p, k, i);
      Woken(s, p, k + 1, i) ==
        if dep.c == i && !Stays(s, p, dep) then Taken(x, dep.second) else x
  {
    var list := s.insts[p].pending;
    InstRight(s, p);
    InstRight(s, i);
    assert LinkRight(s, p, Dep(i, false)) && LinkRight(s, p, Dep(i, true));
    SeenNext(list, k, Dep(i, false));
    SeenNext(list, k, Dep(i, true));
    hide Kept, Source, Stays, Operand, NoneTwice;
  }

  lemma SeenNext(list: seq<Dep>, k: nat, dep: Dep)
    requires k < |list| && NoneTwice(list)
    ensures dep in list[..k + 1] <==> dep in list[..k] || dep == list[k]
    ensures list[k] !in list[..k] && list[k] in list && (dep in list[..k] ==> dep in list)
  {
    assert list[..k + 1] == list[..k] + [list[k]];
  }

  lemma NotYet(s: State, p: nat, k: nat)
    requires Kept(s) && p < |s.insts| && s.insts[p].nDeps == 0 && k < |s.insts[p].pending|
    ensures var dep := s.insts[p].pending[k];
      dep.c < |s.insts| && dep.c != p && !s.insts[dep.c].executed && Used(s.insts[dep.c], dep.second)
    ensures var dep := s.insts[p].pending[k]; Stays(s, p, dep) ==> dep.second
  {
    var dep := s.insts[p].pending[k];
    assert LinkRight(s, p, dep);
    InstRight(s, dep.c);
    StaysRemote(s, p, dep.c, dep.second);
  }

  /** While there are entries not gone through, the next one is not for the load whose entry stayed first. */
  lemma NotStopped(s: State, p: nat, k: nat)
    requires Kept(s) && p < |s.insts| && s.insts[p].nDeps == 0 && k < |s.insts[p].pending| && Staying(s, p, k) != []
    ensures s.insts[p].pending[k].c != Staying(s, p, k)[0].c
  {
    var list, first := s.insts[p].pending, Staying(s, p, k)[0];
    StayingHas(s, p, k, first);
    assert first in list;
    var j :| 0 <= j < |list| && list[j] == first;
    NotYet(s, p, j);
    NotYet(s, p, k);
    InstRight(s, p);
    assert LinkRight(s, p, list[k]);
    SourceIsStore(s, list[k].c, p);
    hide Staying, Kept;
    assert list[k] != first by { assert first in list[..k]; }
  }

  /** Going through the whole list is what execution means. */
  lemma WokenSelf(s: State, p: nat, k: nat)
    requires Kept(s) && p < |s.insts| && k <= |s.insts[p].pending|
    ensures Woken(s, p, k, p) == s.insts[p]
  {
    assert LinkRight(s, p, Dep(p, false)) && LinkRight(s, p, Dep(p, true));
  }

  // ---------- half-way along the list ----------

  /** The list of p once its first k entries have been gone through: the rest, and those put back. */
  function ListAt(s: State, p: nat, k: nat): seq<Dep>
    requires Shape(s) && p < |s.insts| && k <= |s.insts[p].pending|
  {
    s.insts[p].pending[k..] + Staying(s, p, k)
  }

  /** The instructions at that point. */
  ghost predicate Midway(insts: seq<Inst>, s: State, p: nat, k: nat)
    requires Shape(s) && p < |s.insts| && k <= |s.insts[p].pending|
  {
    && |insts| == |s.insts|
    && (forall i | 0 <= i < |insts| && i != p :: insts[i] == Woken(s, p, k, i))
    && insts[p] == s.insts[p].(executed := true, pending := ListAt(s, p, k))
  }

  lemma MidwayStart(s: State, p: nat)
    requires Kept(s) && p < |s.insts|
    ensures Midway(s.insts[p := s.insts[p].(executed := true)], s, p, 0)
  {
    assert ListAt(s, p, 0) == s.insts[p].pending;
  }

  lemma MidwayEnd(insts: seq<Inst>, s: State, p: nat)
    requires Kept(s) && p < |s.insts| && Midway(insts, s, p, |s.insts[p].pending|)
    ensures insts == Execute(s, p).insts
  {
    var n := |s.insts[p].pending|;
    WokenSelf(s, p, n);
    assert ListAt(s, p, n) == Staying(s, p, n);
    hide Kept, Woken, Staying, ListAt;
  }

  /** The instructions after one entry has been taken off the list of p, and put back if it stays. */
  function AfterVisit(insts: seq<Inst>, p: nat, stays: bool): seq<Inst>
    requires p < |insts| && insts[p].pending != [] && insts[p].pending[0].c < |insts|
  {
    var dep, rest := insts[p].pending[0], insts[p].pending[1..];
    if stays then insts[p := insts[p].(pending := rest + [dep])]
    else insts[p := insts[p].(pending := rest)][dep.c := Taken(insts[dep.c], dep.second)]
  }

  lemma ListNext(s: State, p: nat, k: nat)
    requires Shape(s) && p < |s.insts| && k < |s.insts[p].pending|
    ensures var dep := s.insts[p].pending[k];
      && ListAt(s, p, k) != [] && ListAt(s, p, k)[0] == dep
      && ListAt(s, p, k + 1) == ListAt(s, p, k)[1..] + if Stays(s, p, dep) then [dep] else []
  {
  }

  lemma MidwayNext(insts: seq<Inst>, s: State, p: nat, k: nat)
    requires Kept(s) && p < |s.insts| && s.insts[p].nDeps == 0 && k < |s.insts[p].pending| && Midway(insts, s, p, k)
    ensures var dep := s.insts[p].pending[k];
      && insts[p].pending != [] && insts[p].pending[0] == dep && dep.c < |insts| && dep.c != p
      && Midway(AfterVisit(insts, p, Stays(s, p, dep)), s, p, k + 1)
  {
    ListNext(s, p, k);
    NotYet(s, p, k);
    forall i | 0 <= i < |insts| { WokenNext(s, p, k, i); }
    hide Kept, Woken, Taken, ListAt, Staying, Stays;
  }

  /** What the code finds out about the next entry's instruction. */
  lemma VisitSees(insts: seq<Inst>, s: State, p: nat, k: nat)
    requires Kept(s) && p < |s.insts| && s.insts[p].nDeps == 0 && k < |s.insts[p].pending| && Midway(insts, s, p, k)
    ensures var dep := s.insts[p].pending[k];
      && |insts| == |s.insts| && dep.c < |insts| && dep.c != p && !insts[dep.c].executed
      && (Stays(s, p, dep) <==> insts[dep.c].atRetire && s.descs[p].kind.Store?)
      && (Stays(s, p, dep) ==> dep.second && insts[dep.c].used2)
  {
    NotYet(s, p, k);
    StillUsed(s, p, k);
    hide Kept, ListAt, Staying;
  }

  lemma StillUsed(s: State, p: nat, k: nat)
    requires Kept(s) && p < |s.insts| && k < |s.insts[p].pending| && s.insts[p].pending[k].c < |s.insts|
    ensures var dep := s.insts[p].pending[k]; var x := Woken(s, p, k, dep.c);
      x.executed == s.insts[dep.c].executed && x.atRetire == s.insts[dep.c].atRetire
      && (Used(s.insts[dep.c], dep.second) ==> Used(x, dep.second))
  {
    var list := s.insts[p].pending;
    InstRight(s, p);
    assert list[k] !in list[..k];
    hide Kept, Stays;
  }

  // ---------- half-way through a list of loads released at the end ----------

  function ReleasedInst(x: Inst): Inst { Given(x, false, true).(atRetire := false) }

  ghost predicate Released(insts: seq<Inst>, s: State, p: nat, k: nat)
    requires Shape(s) && p < |s.insts| && k <= |s.insts[p].pending|
  {
    var list := s.insts[p].pending;
    && |insts| == |s.insts|
    && (forall i | 0 <= i < |insts| && i != p ::
          insts[i] == if Dep(i, true) in list[..k] then ReleasedInst(s.insts[i]) else s.insts[i])
    && insts[p] == s.insts[p].(pending := list[k..])
  }

  function AfterRelease(insts: seq<Inst>, p: nat): seq<Inst>
    requires p < |insts| && insts[p].pending != [] && insts[p].pending[0].c < |insts|
  {
    var dep, rest := insts[p].pending[0], insts[p].pending[1..];
    insts[p := insts[p].(pending := rest)][dep.c := ReleasedInst(insts[dep.c])]
  }

  lemma ReleasedNext(insts: seq<Inst>, s: State, p: nat, k: nat)
    requires Kept(s) && p < |s.insts| && s.insts[p].executed && k <= |s.insts[p].pending|
    requires Released(insts, s, p, k) && insts[p].pending != []
    ensures k < |s.insts[p].pending|
    ensures var dep := insts[p].pending[0];
      && dep.second && dep.c < |insts| && dep.c != p
      && Released(AfterRelease(insts, p), s, p, k + 1)
  {
    var list := s.insts[p].pending;
    WaitsForExecuted(s, p, list[k]);
    InstRight(s, p);
    assert list[k] !in list[..k];
    assert list[..k + 1] == list[..k] + [list[k]];
    hide Kept, ReleasedInst;
  }

  lemma ReleasedEnd(insts: seq<Inst>, s: State, p: nat)
    requires Kept(s) && p < |s.insts| && s.insts[p].executed
    requires Released(insts, s, p, |s.insts[p].pending|)
    ensures insts[p := insts[p].(gone := true)] == Destroy(s, p).insts
  {
    var list := s.insts[p].pending;
    assert list[..|list|] == list;
    assert LinkRight(s, p, Dep(p, true));
    hide Kept, Given;
    var after := insts[p := insts[p].(gone := true)];
    forall i | 0 <= i < |insts| ensures after[i] == Destroy(s, p).insts[i] {}
  }

  // ---------- queueing up ----------

  /** An entry at the end of the list of p, if there is a p. */
  function AfterQueue(insts: seq<Inst>, p: Option<nat>, dep: Dep): (r: seq<Inst>)
    requires p.Some? ==> p.value < |insts|
    ensures |r| == |insts|
  {
    if p.None? then insts else insts[p.value := insts[p.value].(pending := insts[p.value].pending + [dep])]
  }

  lemma NoQueue(insts: seq<Inst>, dep: Dep)
    ensures AfterQueue(insts, None, dep) == insts
  {
  }

  /** Queueing up behind a store, the first and the second producer adds what a new instruction adds. */
  lemma QueuedIsAdded(s: State, d: Desc)
    requires Shape(s)
    ensures var i, p2 := |s.insts|, StoreToAwait(s, d);
      AfterQueue(AfterQueue(AfterQueue(s.insts, p2, Dep(i, true)), Found1(s, d), Dep(i, false)),
                 if p2.Some? then None else Found2(s, d), Dep(i, true)) + [NewInst(s, d)]
      == AddInst(s, d).insts
  {
    var i, p2 := |s.insts|, StoreToAwait(s, d);
    var a2 := AfterQueue(AfterQueue(AfterQueue(s.insts, p2, Dep(i, true)), Found1(s, d), Dep(i, false)),
                         if p2.Some? then None else Found2(s, d), Dep(i, true));
    hide NewInst, AfterQueue, Added, Found1, Found2, StoreToAwait;
    forall j | 0 <= j < i ensures a2[j] == s.insts[j].(pending := s.insts[j].pending + Added(s, d, j)) { QueuedAt(s, d, j); }
    assert a2 == AddInst(s, d).insts[..i];
  }

  /** What the three look-ups put into the list of j. */
  lemma QueuedAt(s: State, d: Desc, j: nat)
    requires Shape(s) && j < |s.insts|
    ensures var i, p2 := |s.insts|, StoreToAwait(s, d);
      AfterQueue(AfterQueue(AfterQueue(s.insts, p2, Dep(i, true)), Found1(s, d), Dep(i, false)),
                 if p2.Some? then None else Found2(s, d), Dep(i, true))[j]
      == s.insts[j].(pending := s.insts[j].pending + Added(s, d, j))
  {
    FoundStore(s, d);
    hide AfterQueue, StoreToAwait, Found1, Found2;
    var i, p2, f1, list := |s.insts|, StoreToAwait(s, d), Found1(s, d), s.insts[j].pending;
    var f2 := if p2.Some? then None else Found2(s, d);
    var a0 := AfterQueue(s.insts, p2, Dep(i, true));
    var a1 := AfterQueue(a0, f1, Dep(i, false));
    AfterQueueAt(s.insts, p2, Dep(i, true), j);
    AfterQueueAt(a0, f1, Dep(i, false), j);
    AfterQueueAt(a1, f2, Dep(i, true), j);
    InAllThree(list, Entry(p2, j, Dep(i, true)), Entry(f1, j, Dep(i, false)), Entry(f2, j, Dep(i, true)));
    assert Added(s, d, j) == Entry(p2, j, Dep(i, true)) + Entry(f1, j, Dep(i, false)) + Entry(f2, j, Dep(i, true));
  }

  function Entry(p: Option<nat>, j: nat, dep: Dep): seq<Dep> {
    if p == Some(j) then [dep] else []
  }

  lemma AfterQueueAt(insts: seq<Inst>, p: Option<nat>, dep: Dep, j: nat)
    requires j < |insts| && (p.Some? ==> p.value < |insts|)
    ensures AfterQueue(insts, p, dep)[j] == insts[j].(pending := insts[j].pending + Entry(p, j, dep))
  {
    if p != Some(j) { assert insts[j].pending + [] == insts[j].pending; }
  }

  lemma InAllThree(list: seq<Dep>, a: seq<Dep>, b: seq<Dep>, c: seq<Dep>)
    ensures list + a + b + c == list + (a + b + c)
  {
  }

  lemma FoundStore(s: State, d: Desc)
    requires Shape(s)
    ensures StoreToAwait(s, d).Some? ==> Found2(s, d) == StoreToAwait(s, d) && StoreToAwait(s, d).value < |s.insts|
    ensures Found1(s, d).Some? ==> Found1(s, d).value < |s.insts|
    ensures Found2(s, d).Some? ==> Found2(s, d).value < |s.insts|
  {
  }

  class Window {
    var descs: seq<Desc>
    var insts: seq<Inst>
    var rat: map<(nat, nat), nat>
    var stores: map<nat, nat>

    ghost function Now(): State
      reads this
    {
      State(descs, insts, rat, stores)
    }

    constructor ()
      ensures Now() == Init() && Kept(Now())
    {
      descs, insts, rat, stores := [], [], map[], map[];
      new;
      KeptAlways([]);
    }

    /** Instruction c waits for p with this operand. */
    method AddSrc(p: nat, c: nat, second: bool)
      requires p < |insts| && c < |insts| && p != c
      modifies this`insts
      ensures insts == old(insts)[p := old(insts)[p].(pending := old(insts)[p].pending + [Dep(c, second)])]
                                 [c := old(insts)[c].(nDeps := old(insts)[c].nDeps + 1,
                                                      used1 := old(insts)[c].used1 || !second,
                                                      used2 := old(insts)[c].used2 || second)]
    {
      var x := insts[c].(nDeps := insts[c].nDeps + 1);
      x := if second then x.(used2 := true) else x.(used1 := true);
      insts := insts[c := x];
      insts := insts[p := insts[p].(pending := insts[p].pending + [Dep(c, second)])];
    }

    /** Takes the first entry off p's list; its instruction waits for one operand less. */
    method GetNextPending(p: nat) returns (c: nat)
      requires p < |insts| && insts[p].pending != [] && insts[p].pending[0].c < |insts| && insts[p].pending[0].c != p
      modifies this`insts
      ensures var dep := old(insts)[p].pending[0]; var x := old(insts)[dep.c];
        && c == dep.c
        && insts == old(insts)[p := old(insts)[p].(pending := old(insts)[p].pending[1..])]
                              [c := x.(nDeps := x.nDeps - 1, used1 := x.used1 && dep.second, used2 := x.used2 && !dep.second)]
    {
      var dep := insts[p].pending[0];
      c := dep.c;
      var x := insts[c].(nDeps := insts[c].nDeps - 1);
      x := if dep.second then x.(used2 := false) else x.(used1 := false);
      insts := insts[c := x];
      insts := insts[p := insts[p].(pending := insts[p].pending[1..])];
    }

    method Send(c: nat)
      requires c < |insts|
      modifies this`insts
      ensures insts == old(insts)[c := old(insts)[c].(sends := old(insts)[c].sends + 1)]
    {
      insts := insts[c := insts[c].(sends := insts[c].sends + 1)];
    }
  
    // ---------- execution ----------

    /** Takes the next entry off the list of p, which has executed. A load that must wait until the store p is
        performed goes to the end of the list again; any other instruction gets its operand. */
    method Visit(p: nat, ghost s: State, ghost k: nat) returns (again: Option<nat>)
      requires Kept(s) && p < |s.insts| && s.insts[p].nDeps == 0 && k < |s.insts[p].pending|
      requires descs == s.descs && Midway(insts, s, p, k)
      modifies this`insts
      ensures Midway(insts, s, p, k + 1)
      ensures var dep := s.insts[p].pending[k]; again == if Stays(s, p, dep) then Some(dep.c) else Option.None
    {
      assert p < |descs|;
      hide Kept, Midway, Stays;
      ghost var before := insts;
      VisitSees(insts, s, p, k);
      MidwayNext(insts, s, p, k);
      again := Option.None;
      var c := GetNextPending(p);
      if insts[c].executed {
      } else if insts[c].atRetire && descs[p].kind.Store? {
        AddSrc(p, c, true);
        again := Some(c);
      } else if insts[c].nDeps == 0 {
        Send(c);
      }
      assert insts == AfterVisit(before, p, again.Some?);
    }

    /** Called when p has executed: goes through the list of p once; the first load put back tells when to stop. */
    method Executed(p: nat)
      requires Kept(Now()) && Enabled(Now(), Event.Executed(p))
      modifies this
      ensures Now() == W.Execute(old(Now()), p)
    {
      ghost var s := Now();
      InstRight(s, p);
      var key := (descs[p].core, descs[p].dest);
      if descs[p].kind != Kind.Event && key in rat && rat[key] == p { rat := rat - {key}; }
      insts := insts[p := insts[p].(executed := true)];
      assert rat == W.Execute(s, p).rat;
      MidwayStart(s, p);
      Drain(p, s);
      MidwayEnd(insts, s, p);
    }

    method Drain(p: nat, ghost s: State)
      requires Kept(s) && p < |s.insts| && s.insts[p].nDeps == 0 && descs == s.descs && Midway(insts, s, p, 0)
      modifies this`insts
      ensures Midway(insts, s, p, |s.insts[p].pending|)
    {
      hide InstsRight, Linked, AliasRight, StoresRight, Woken, Stays;
      var stopAt := Option<nat>.None;
      ghost var k, list := 0, s.insts[p].pending;
      while insts[p].pending != []
        invariant 0 <= k <= |list| && Midway(insts, s, p, k)
        invariant stopAt == if Staying(s, p, k) == [] then Option.None else Some(Staying(s, p, k)[0].c)
        decreases |list| - k
      {
        if k < |list| && Staying(s, p, k) != [] { NotStopped(s, p, k); }
        if stopAt == Some(insts[p].pending[0].c) { break; }
        var again := Visit(p, s, k);
        if again.Some? && stopAt.None? { stopAt := again; }
        k := k + 1;
      }
    }
  
    // ---------- leaving the reorder buffer ----------

    /** Takes the next load off the list of p, which it has waited for to be performed. */
    method Release(p: nat, ghost s: State, ghost k: nat)
      requires Kept(s) && p < |s.insts| && s.insts[p].executed && k <= |s.insts[p].pending|
      requires Released(insts, s, p, k) && insts[p].pending != []
      modifies this`insts
      ensures k < |s.insts[p].pending| && Released(insts, s, p, k + 1)
    {
      assert p < |insts|;
      hide Kept, Released;
      ghost var before := insts;
      ReleasedNext(insts, s, p, k);
      var c := GetNextPending(p);
      insts := insts[c := insts[c].(atRetire := false)];
      if insts[c].nDeps == 0 { Send(c); }
      assert insts == AfterRelease(before, p);
    }

    /** Called when p is destroyed: whoever still waits for it is a load of another context, which may go on now. */
    method AwakeRemoteInstructions(p: nat)
      requires Kept(Now()) && p < |insts| && insts[p].executed
      modifies this`insts
      ensures |insts| == |old(insts)| && Now().(insts := insts[p := insts[p].(gone := true)]) == W.Destroy(old(Now()), p)
    {
      ghost var s := Now();
      ghost var k, list := 0, insts[p].pending;
      while insts[p].pending != []
        invariant 0 <= k <= |list| && Released(insts, s, p, k)
        decreases |list| - k
      {
        Release(p, s, k);
        k := k + 1;
      }
      ReleasedEnd(insts, s, p);
    }

    method Destroy(p: nat)
      requires Kept(Now()) && p < |insts| && insts[p].executed
      modifies this`insts
      ensures Now() == W.Destroy(old(Now()), p)
    {
      AwakeRemoteInstructions(p);
      insts := insts[p := insts[p].(gone := true)];
    }

    /** p leaves the reorder buffer. */
    method Retire(p: nat)
      requires Kept(Now()) && Enabled(Now(), Event.Retired(p))
      modifies this
      ensures Now() == W.Retire(old(Now()), p)
    {
      ghost var s := Now();
      LeftKept(s, p);
      insts := insts[p := insts[p].(retired := true)];
      match descs[p].kind {
        case Store(w) =>
          if w in stores && stores[w] == p { stores := stores - {w}; }
        case _ =>
          assert Now() == Left(s, p);
          Destroy(p);
      }
    }
  
    // ---------- renaming ----------

    /** A load looks in the store buffer for a store to wait for; a store enters itself there. */
    method GetEntry(i: nat, ghost s: State)
      requires Shape(s) && i == |s.insts| && Now() == s.(descs := descs, insts := s.insts + [NEW_INST])
      requires |descs| == i + 1 && descs[..i] == s.descs
      modifies this`insts, this`stores
      ensures var d := descs[i]; var p := StoreToAwait(s, d); var store := if d.kind.Load? then Lookup(s.stores, d.kind.word) else Option.None;
        && stores == (if d.kind.Store? then s.stores[d.kind.word := i] else s.stores)
        && |insts| == i + 1
        && insts[..i] == AfterQueue(s.insts, p, Dep(i, true))
        && insts[i] == NEW_INST.(used2 := p.Some?, nDeps := Bit(p.Some?),
                                 atRetire := store.Some? && s.descs[store.value].ctx != d.ctx,
                                 forwarded := store.Some? && s.descs[store.value].ctx == d.ctx)
    {
      match descs[i].kind {
        case Load(word) =>
          if word in stores {
            var p := stores[word];
            assert descs[p] == descs[..i][p] && insts[p] == s.insts[p];
            if descs[p].ctx != descs[i].ctx {
              insts := insts[i := insts[i].(atRetire := true)];
              AddSrc(p, i, true);
            } else {
              insts := insts[i := insts[i].(forwarded := true)];
              if !insts[p].executed { AddSrc(p, i, true); }
            }
          }
        case Store(word) => stores := stores[word := i];
        case _ =>
      }
    }

    /** Queues instruction i up behind the producer of a register, if the alias table names one. */
    method AwaitRegister(i: nat, key: (nat, nat), second: bool)
      requires |insts| == i + 1 && forall k | k in rat :: rat[k] < i
      modifies this`insts
      ensures var x, f := old(insts)[i], Lookup(rat, key);
        && |insts| == i + 1
        && insts[..i] == AfterQueue(old(insts)[..i], f, Dep(i, second))
        && insts[i] == if f.None? then x
             else x.(used1 := x.used1 || !second, used2 := x.used2 || second, nDeps := x.nDeps + 1)
    {
      if key in rat { AddSrc(rat[key], i, second); }
    }

    /** Looks the operands up in the alias table, and enters the destination there. */
    method Rename(i: nat)
      requires |descs| == |insts| == i + 1 && forall k | k in rat :: rat[k] < i
      modifies this`insts, this`rat
      ensures var d, x := descs[i], old(insts)[i];
        var f1 := Lookup(old(rat), (d.core, d.src1));
        var f2 := if x.used2 then Option.None else Lookup(old(rat), (d.core, d.src2));
        && rat == old(rat)[(d.core, d.dest) := i]
        && |insts| == i + 1
        && insts[..i] == AfterQueue(AfterQueue(old(insts)[..i], f1, Dep(i, false)), f2, Dep(i, true))
        && insts[i] == x.(used1 := x.used1 || f1.Some?, used2 := x.used2 || f2.Some?, nDeps := x.nDeps + Bit(f1.Some?) + Bit(f2.Some?))
    {
      hide AfterQueue;
      var d := descs[i];
      if insts[i].used2 {
        AwaitRegister(i, (d.core, d.src1), false);
        NoQueue(insts[..i], Dep(i, true));
      } else {
        AwaitRegister(i, (d.core, d.src1), false);
        AwaitRegister(i, (d.core, d.src2), true);
      }
      rat := rat[(d.core, d.dest) := i];
    }

    method AddInst(d: Desc)
      requires Shape(Now())
      modifies this
      ensures Now() == W.AddInst(old(Now()), d)
    {
      ghost var s := Now();
      var i := |insts|;
      descs, insts := descs + [d], insts + [NEW_INST];
      GetEntry(i, s);
      Rename(i);
      if insts[i].nDeps == 0 { Send(i); }
      QueuedIsAdded(s, d);
      assert insts[i] == NewInst(s, d);
      hide Added, NewInst, AfterQueue;
      assert insts == insts[..i] + [insts[i]];
    }
  }
}
