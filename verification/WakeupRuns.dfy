/**
 What the wake-up network guarantees over every run: each instruction is sent on exactly
 once, when its last operand is there, and the window never gets stuck.
 */
module WakeupRuns {
  import opened Options
  import opened Wakeup

  // ---------- what one event does to one instruction ----------

  predicate Further(x: Inst, x': Inst) {
    (x.executed ==> x'.executed) && (x.retired ==> x'.retired) && (x.gone ==> x'.gone)
  }

  lemma DescStep(s: State, e: Event, i: nat)
    requires Shape(s) && i < |s.insts|
    ensures var s' := Step(s, e); i < |s'.insts| && s'.descs[i] == s.descs[i]
  {
  }

  /** Instructions only get further. */
  lemma FurtherStep(s: State, e: Event, i: nat)
    requires Kept(s) && i < |s.insts|
    ensures var s' := Step(s, e); i < |s'.insts| && s'.descs[i] == s.descs[i] && Further(s.insts[i], s'.insts[i])
  {
    DescStep(s, e, i);
    hide InstsRight, Linked, AliasRight, StoresRight, AddInst, Execute, Destroy;
    if Enabled(s, e) {
      match e {
        case Rename(d) => AddInstAt(s, d);
        case Executed(p) => ExecuteFlags(s, p, i);
        case Retired(p) =>
          LeftKept(s, p);
          if !s.descs[p].kind.Store? { DestroyFlags(Left(s, p), p, i); }
        case Performed(p) =>
          InstRight(s, p);
          DestroyFlags(s, p, i);
      }
    }
  }

  lemma SourceStep(s: State, e: Event, i: nat, second: bool)
    requires Shape(s) && i < |s.insts|
    ensures var s' := Step(s, e); i < |s'.insts| && Source(s'.descs, i, second) == Source(s.descs, i, second)
  {
    if e.Rename? { SourcePrefix(s.descs, e.d, i, second); }
  }

  /** An operand waited for stays so, or its source delivers it at this very event. */
  lemma UsedStep(s: State, e: Event, i: nat, second: bool)
    requires Kept(s) && i < |s.insts|
    ensures var s' := Step(s, e);
      && i < |s'.insts|
      && (Used(s'.insts[i], second) ==> Used(s.insts[i], second))
      && (Used(s.insts[i], second) && !Used(s'.insts[i], second) ==>
            var p := Source(s'.descs, i, second); p.Some? && Delivered(s', i, second, p.value))
  {
    FurtherStep(s, e, i);
    SourceStep(s, e, i, second);
    InstRight(s, i);
    hide InstsRight, Linked, AliasRight, StoresRight, AddInst, Execute, Destroy, Source;
    if Enabled(s, e) {
      match e {
        case Rename(d) => AddInstAt(s, d);
        case Executed(p) => UsedExecute(s, p, i, second);
        case Retired(p) => UsedRetire(s, p, i, second);
        case Performed(p) => UsedPerform(s, p, i, second);
      }
    }
  }

  lemma UsedExecute(s: State, p: nat, i: nat, second: bool)
    requires Kept(s) && Enabled(s, Executed(p)) && i < |s.insts|
    ensures var s' := Execute(s, p);
      && (Used(s'.insts[i], second) ==> Used(s.insts[i], second))
      && (Used(s.insts[i], second) && !Used(s'.insts[i], second) ==>
            Source(s'.descs, i, second) == Some(p) && Delivered(s', i, second, p))
  {
    assert Execute(s, p).descs == s.descs;
    hide Execute, InstsRight, Linked, AliasRight, StoresRight, Given, Source;
    ExecuteAt(s, p, i);
    GivenFlags(s.insts[i], Frees(s, p, i, false), Frees(s, p, i, true));
    ExecuteFlags(s, p, p);
  }

  lemma UsedRetire(s: State, p: nat, i: nat, second: bool)
    requires Kept(s) && Enabled(s, Retired(p)) && i < |s.insts|
    ensures Used(Retire(s, p).insts[i], second) == Used(s.insts[i], second)
  {
    LeftKept(s, p);
    InstRight(s, i);
    SourceIsStore(s, i, p);
    hide Destroy, InstsRight, Linked, AliasRight, StoresRight, Source;
    if !s.descs[p].kind.Store? { DestroyFlags(Left(s, p), p, i); }
  }

  lemma UsedPerform(s: State, p: nat, i: nat, second: bool)
    requires Kept(s) && Enabled(s, Performed(p)) && i < |s.insts|
    ensures var s' := Destroy(s, p);
      && (Used(s'.insts[i], second) ==> Used(s.insts[i], second))
      && (Used(s.insts[i], second) && !Used(s'.insts[i], second) ==>
            Source(s'.descs, i, second) == Some(p) && Delivered(s', i, second, p))
  {
    assert Destroy(s, p).descs == s.descs;
    InstRight(s, p);
    hide Destroy, InstsRight, Linked, AliasRight, StoresRight, Source;
    DestroyFlags(s, p, i);
    DestroyFlags(s, p, p);
  }

  /** A new instruction waits for an operand exactly if the program has a source for it that is not there yet: one that
      has not executed, or a store of another context that is still in the store buffer. */
  lemma RenameAwaits(s: State, d: Desc, second: bool)
    requires Kept(s) && d.Decoded()
    ensures var s', i := AddInst(s, d), |s.insts|;
      && i < |s'.insts|
      && Used(s'.insts[i], second) == match Source(s'.descs, i, second)
           case None => false
           case Some(p) => if Remote(s'.descs, i, second, p) then !s.insts[p].retired else !s.insts[p].executed
  {
    var s', i := AddInst(s, d), |s.insts|;
    AddInstAt(s, d);
    FoundRight(s, d);
    var p := Source(s'.descs, i, second);
    if p.Some? { InstRight(s, p.value); }
    if d.kind.Load? { LastStorePrefix(s.descs, d, i, d.kind.word); }
    hide AddInst, InstsRight, Linked, Writer, LastStore;
  }

  // ---------- along a run ----------

  /** p, of another context, had left the store buffer before instruction i was renamed. */
  ghost predicate RetiredFirst(events: seq<Event>, i: nat, p: nat) {
    exists n :: 0 <= n <= |events| && RetiredBy(Exec(events[..n]), i, p)
  }

  predicate RetiredBy(s: State, i: nat, p: nat)
    requires Shape(s)
  {
    p < |s.insts| <= i && s.insts[p].retired
  }

  lemma {:induction false} RetiredStays(events: seq<Event>, n: nat, i: nat, p: nat)
    requires n <= |events| && RetiredBy(Exec(events[..n]), i, p)
    ensures p < |Exec(events).insts| && Exec(events).insts[p].retired
  {
    hide Kept, Step, Further;
    var m := |events| - 1;
    if n == |events| {
      assert events[..n] == events;
    } else {
      assert events[..m][..n] == events[..n];
      RetiredStays(events[..m], n, i, p);
      KeptAlways(events[..m]);
      FurtherStep(Exec(events[..m]), events[m], p);
      StillRetired(Exec(events[..m]).insts[p], Exec(events).insts[p]);
    }
  }

  lemma StillRetired(x: Inst, x': Inst)
    requires Further(x, x') && x.retired
    ensures x'.retired
  {
  }

  lemma RetiredFirstIn(events: seq<Event>, longer: seq<Event>, n: nat, i: nat, p: nat)
    requires n <= |events| && n <= |longer| && events[..n] == longer[..n] && RetiredBy(Exec(events[..n]), i, p)
    ensures RetiredFirst(events, i, p) && RetiredFirst(longer, i, p)
  {
  }

  /** Only what happened before instruction i was renamed matters. */
  lemma RetiredFirstSame(before: seq<Event>, events: seq<Event>, i: nat, p: nat)
    requires |events| == |before| + 1 && before <= events && |Exec(events).insts| > i
    ensures RetiredFirst(events, i, p) <==> RetiredFirst(before, i, p)
  {
    hide Exec;
    if n :| 0 <= n <= |before| && RetiredBy(Exec(before[..n]), i, p) {
      assert before[..n] == events[..n];
      RetiredFirstIn(before, events, n, i, p);
    }
    if n :| 0 <= n <= |events| && RetiredBy(Exec(events[..n]), i, p) {
      assert events[..|events|] == events;
      assert before[..n] == events[..n];
      RetiredFirstIn(before, events, n, i, p);
    }
  }

  /** What an instruction may go ahead without: an operand that its source has delivered, or a store of another context
      that had left the store buffer before the instruction was renamed. */
  ghost predicate Provided(events: seq<Event>, i: nat, second: bool, p: nat)
    requires i < |Exec(events).insts| && p < |Exec(events).insts|
  {
    || Delivered(Exec(events), i, second, p)
    || (Remote(Exec(events).descs, i, second, p) && RetiredFirst(events, i, p))
  }

  /** The run up to an event, and the event that renamed instruction i. */
  lemma JustRenamed(events: seq<Event>, i: nat) returns (d: Desc)
    requires |events| > 0 && i < |Exec(events).insts| && i >= |Exec(events[..|events| - 1]).insts|
    ensures var s := Exec(events[..|events| - 1]);
      Kept(s) && d.Decoded() && i == |s.insts| && Exec(events) == AddInst(s, d)
  {
    var s, e := Exec(events[..|events| - 1]), events[|events| - 1];
    KeptAlways(events[..|events| - 1]);
    OnlyRenameAdds(s, e);
    d := e.d;
  }

  lemma OnlyRenameAdds(s: State, e: Event)
    requires Shape(s)
    ensures |Step(s, e).insts| == |s.insts| + if Enabled(s, e) && e.Rename? then 1 else 0
  {
  }

  /** An operand is waited for exactly until it is provided. */
  lemma {:induction false} UsedExactly(events: seq<Event>, i: nat, second: bool)
    requires i < |Exec(events).insts|
    ensures var s := Exec(events); var p := Source(s.descs, i, second);
      Used(s.insts[i], second) <==> p.Some? && !Provided(events, i, second, p.value)
  {
    KeptAlways(events);
    InstRight(Exec(events), i);
    var before, e := events[..|events| - 1], events[|events| - 1];
    var s, s' := Exec(before), Exec(events);
    var p := Source(s'.descs, i, second);
    if i < |s.insts| {
      UsedExactly(before, i, second);
      KeptAlways(before);
      SourceStep(s, e, i, second);
      UsedStep(s, e, i, second);
      if p.Some? { ProvidedKept(events, i, second, p.value); }
    } else {
      var d := JustRenamed(events, i);
      RenameAwaits(s, d, second);
      if p.Some? { ProvidedAtRename(events, d, i, second, p.value); }
    }
  }

  lemma ProvidedKept(events: seq<Event>, i: nat, second: bool, p: nat)
    requires |events| > 0 && i < |Exec(events[..|events| - 1]).insts| && p < i
    ensures i < |Exec(events).insts| && p < |Exec(events).insts|
    ensures Provided(events, i, second, p) <==>
              Provided(events[..|events| - 1], i, second, p) || Delivered(Exec(events), i, second, p)
  {
    var before, e := events[..|events| - 1], events[|events| - 1];
    KeptAlways(before);
    FurtherStep(Exec(before), e, i);
    FurtherStep(Exec(before), e, p);
    RetiredFirstSame(before, events, i, p);
    hide Step, Kept, RetiredFirst;
  }

  lemma ProvidedAtRename(events: seq<Event>, d: Desc, i: nat, second: bool, p: nat)
    requires |events| > 0 && Kept(Exec(events[..|events| - 1])) && d.Decoded()
    requires i == |Exec(events[..|events| - 1]).insts| && Exec(events) == AddInst(Exec(events[..|events| - 1]), d) && p < i
    requires i < |Exec(events).insts|
    ensures var s := Exec(events[..|events| - 1]);
      Provided(events, i, second, p) <==>
        if Remote(Exec(events).descs, i, second, p) then s.insts[p].retired else s.insts[p].executed
  {
    var before := events[..|events| - 1];
    var s := Exec(before);
    AddInstAt(s, d);
    InstRight(s, p);
    RetiredFirstSame(before, events, i, p);
    assert before[..|before|] == before;
    if s.insts[p].retired { RetiredFirstIn(before, before, |before|, i, p); }
    if n :| 0 <= n <= |before| && RetiredBy(Exec(before[..n]), i, p) { RetiredStays(before, n, i, p); }
    hide AddInst, Kept, Exec;
  }

  /** In every run an instruction is sent on at most once, and it has been sent on exactly if the program's own sources
      of both its operands have provided them: the last older writer of the register, the last older store to the word.
      A load waits for a store of another context until that is performed, unless the store had left the store buffer
      before the load was renamed. */
  lemma SentExactly(events: seq<Event>, i: nat)
    requires i < |Exec(events).insts|
    ensures var s := Exec(events);
      && s.insts[i].sends <= 1
      && (s.insts[i].executed ==> s.insts[i].sends == 1)
      && (s.insts[i].sends == 1 <==>
            forall second | Source(s.descs, i, second).Some? :: Provided(events, i, second, Source(s.descs, i, second).value))
  {
    KeptAlways(events);
    InstRight(Exec(events), i);
    UsedExactly(events, i, false);
    UsedExactly(events, i, true);
    hide Source, Kept, Operand, Exec, Provided;
  }

  /** No wake-up is lost: once its producers have delivered, the instruction has been sent on. */
  lemma NoLostWakeup(events: seq<Event>, i: nat)
    requires i < |Exec(events).insts|
    requires var s := Exec(events); forall second | Source(s.descs, i, second).Some? ::
      Delivered(s, i, second, Source(s.descs, i, second).value)
    ensures Exec(events).insts[i].sends == 1
  {
    SentExactly(events, i);
    hide Source, Exec, Delivered;
  }

  /** An instruction is sent on when it is renamed or at the very event that delivers the last operand it waits for. */
  lemma SentWithLastOperand(events: seq<Event>, e: Event, i: nat)
    requires var s := Exec(events); i < |s.insts| && s.insts[i].sends == 0 && Step(s, e).insts[i].sends == 1
    ensures var s, s' := Exec(events), Step(Exec(events), e);
      && (exists second :: Used(s.insts[i], second))
      && forall second | Used(s.insts[i], second) :: var p := Source(s.descs, i, second);
           p.Some? && !Delivered(s, i, second, p.value) && Delivered(s', i, second, p.value)
  {
    var s, s' := Exec(events), Step(Exec(events), e);
    KeptAlways(events);
    StepKept(s, e);
    InstRight(s, i);
    InstRight(s', i);
    assert Used(s.insts[i], s.insts[i].used2);
    forall second
      ensures Used(s.insts[i], second) ==> var p := Source(s.descs, i, second);
        p.Some? && !Delivered(s, i, second, p.value) && Delivered(s', i, second, p.value)
    {
      assert Operand(s, i, second);
      UsedStep(s, e, i, second);
      SourceStep(s, e, i, second);
    }
    hide Step, Kept, Source;
  }

  /** A register that can be read is never looked up to an instruction that has executed. */
  lemma AliasNeverExecuted(events: seq<Event>, core: nat, reg: nat)
    requires reg != INVALID_OUTPUT && (core, reg) in Exec(events).rat
    ensures var s := Exec(events); var p := s.rat[(core, reg)];
      p < |s.insts| && !s.insts[p].executed && Writer(s.descs, |s.descs|, core, reg) == Some(p)
  {
    var s := Exec(events);
    KeptAlways(events);
    assert Lookup(s.rat, (core, reg)) == Some(s.rat[(core, reg)]);
  }

  // ---------- progress ----------

  predicate Unfinished(s: State, i: nat)
    requires Shape(s) && i < |s.insts|
  {
    !s.insts[i].retired || (s.descs[i].kind.Store? && !s.insts[i].gone)
  }

  /** In every run the oldest instruction that has not executed, unless it waits for a store of another context, can
      execute. */
  lemma OldestIsReady(events: seq<Event>, i: nat)
    requires var s := Exec(events); i < |s.insts| && !s.insts[i].executed && forall j | 0 <= j < i :: s.insts[j].executed
    ensures var s := Exec(events);
      && (Enabled(s, Executed(i)) <==> !s.insts[i].atRetire)
      && (s.insts[i].atRetire ==>
            var p := Source(s.descs, i, true);
            p.Some? && s.descs[p.value].kind.Store? && s.descs[p.value].ctx != s.descs[i].ctx && !s.insts[p.value].gone)
  {
    KeptAlways(events);
    hide Exec;
    OldestReady(Exec(events), i);
  }

  lemma OldestReady(s: State, i: nat)
    requires Kept(s) && i < |s.insts| && !s.insts[i].executed && forall j | 0 <= j < i :: s.insts[j].executed
    ensures Enabled(s, Executed(i)) <==> !s.insts[i].atRetire
    ensures s.insts[i].atRetire ==>
              var p := Source(s.descs, i, true);
              p.Some? && s.descs[p.value].kind.Store? && s.descs[p.value].ctx != s.descs[i].ctx && !s.insts[p.value].gone
  {
    hide InstsRight, Linked, AliasRight, StoresRight, Source;
    InstRight(s, i);
    if s.insts[i].used2 { SourceIsStore(s, i, Source(s.descs, i, true).value); }
  }

  lemma {:induction false} OldestBelow(s: State, n: nat, core: nat) returns (q: nat)
    requires Shape(s) && n < |s.insts| && !s.insts[n].retired && s.descs[n].core == core
    ensures q <= n && !s.insts[q].retired && s.descs[q].core == core
    ensures forall j | 0 <= j < q && s.descs[j].core == core :: s.insts[j].retired
  {
    if j :| 0 <= j < n && s.descs[j].core == core && !s.insts[j].retired {
      q := OldestBelow(s, j, core);
    } else {
      q := n;
    }
  }

  lemma {:induction false} OldestUnexecuted(s: State, n: nat) returns (i: nat)
    requires Shape(s) && n < |s.insts| && !s.insts[n].executed
    ensures i <= n && !s.insts[i].executed && forall j | 0 <= j < i :: s.insts[j].executed
  {
    if j :| 0 <= j < n && !s.insts[j].executed { i := OldestUnexecuted(s, j); } else { i := n; }
  }

  /** The window cannot deadlock: as long as an instruction of a run is unfinished, some instruction can execute, retire
      or be performed. */
  lemma NeverStuck(events: seq<Event>, n: nat) returns (e: Event)
    requires n < |Exec(events).insts| && Unfinished(Exec(events), n)
    ensures !e.Rename? && Enabled(Exec(events), e)
  {
    var s := Exec(events);
    KeptAlways(events);
    if k :| 0 <= k < |s.insts| && !s.insts[k].executed {
      var i := OldestUnexecuted(s, k);
      OldestIsReady(events, i);
      if !s.insts[i].atRetire { return Executed(i); }
      var p := Source(s.descs, i, true).value;
      if s.insts[p].retired { return Performed(p); }
      var q := OldestBelow(s, p, s.descs[p].core);
      return Retired(q);
    }
    if s.insts[n].retired { return Performed(n); }
    var q := OldestBelow(s, n, s.descs[n].core);
    return Retired(q);
  }

  /** What the first n instructions still have to go through. */
  function Todo(s: State, n: nat): nat
    requires Shape(s) && n <= |s.insts|
  {
    if n == 0 then 0
    else Todo(s, n - 1) + Bit(!s.insts[n - 1].executed) + Bit(!s.insts[n - 1].retired) + Bit(!s.insts[n - 1].gone)
  }

  lemma {:induction false} TodoAtMost(s: State, n: nat)
    requires Shape(s) && n <= |s.insts|
    ensures Todo(s, n) <= 3 * n
  {
    if n > 0 { TodoAtMost(s, n - 1); }
  }

  lemma {:induction false} TodoFewer(s: State, s': State, n: nat, p: nat)
    requires Shape(s) && Shape(s') && n <= |s.insts| == |s'.insts| && p < |s.insts|
    requires forall i | 0 <= i < |s.insts| :: Further(s.insts[i], s'.insts[i])
    requires !Further(s'.insts[p], s.insts[p])
    ensures Todo(s', n) <= Todo(s, n) && (p < n ==> Todo(s', n) < Todo(s, n))
  {
    if n > 0 {
      TodoFewer(s, s', n - 1, p);
      assert Further(s.insts[n - 1], s'.insts[n - 1]);
    }
  }

  /** In every run each such event brings the window nearer its end. */
  lemma EventsFinish(events: seq<Event>, e: Event)
    requires Enabled(Exec(events), e) && !e.Rename?
    ensures var s := Exec(events); var s' := Step(s, e);
      |s'.insts| == |s.insts| && Todo(s', |s.insts|) < Todo(s, |s.insts|) <= 3 * |s.insts|
  {
    var s := Exec(events);
    KeptAlways(events);
    TodoAtMost(s, |s.insts|);
    var s' := Step(s, e);
    OnlyRenameAdds(s, e);
    forall i | 0 <= i < |s.insts| ensures Further(s.insts[i], s'.insts[i]) { FurtherStep(s, e, i); }
    var p := Strictly(s, e);
    hide Step, Todo, Further, Kept, Enabled;
    TodoFewer(s, s', |s.insts|, p);
  }

  /** The instruction an event is about gets further. */
  lemma Strictly(s: State, e: Event) returns (p: nat)
    requires Kept(s) && Enabled(s, e) && !e.Rename?
    ensures var s' := Step(s, e); p < |s.insts| && p < |s'.insts| && !Further(s'.insts[p], s.insts[p])
  {
    hide InstsRight, Linked, AliasRight, StoresRight, Execute, Destroy;
    OnlyRenameAdds(s, e);
    p := e.p;
    match e {
      case Executed(_) => ExecuteFlags(s, p, p);
      case Retired(_) =>
        LeftKept(s, p);
        if !s.descs[p].kind.Store? { DestroyFlags(Left(s, p), p, p); }
      case Performed(_) =>
        InstRight(s, p);
        DestroyFlags(s, p, p);
    }
  }

  /** Events that can happen one after the other, none of them a renaming. */
  predicate Useful(events: seq<Event>, more: seq<Event>) {
    forall k | 0 <= k < |more| :: !more[k].Rename? && Enabled(Exec(events + more[..k]), more[k])
  }

  lemma UsefulFirst(events: seq<Event>, e: Event, rest: seq<Event>)
    requires !e.Rename? && Enabled(Exec(events), e) && Useful(events + [e], rest)
    ensures Useful(events, [e] + rest)
  {
    hide Exec, Enabled;
    var more := [e] + rest;
    forall k | 0 <= k < |more| ensures !more[k].Rename? && Enabled(Exec(events + more[..k]), more[k]) {
      if k == 0 {
        assert events + more[..0] == events;
      } else {
        assert events + more[..k] == events + [e] + rest[..k - 1];
      }
    }
  }

  lemma ExecMore(events: seq<Event>, e: Event)
    ensures Exec(events + [e]) == Step(Exec(events), e)
  {
    assert (events + [e])[..|events|] == events;
  }

  /** So from wherever a run has got to, and with nothing more renamed, at most 3n events finish all n instructions. */
  lemma {:induction false} WindowDrains(events: seq<Event>) returns (more: seq<Event>)
    ensures Useful(events, more) && |more| <= 3 * |Exec(events).insts| && |more| <= Todo(Exec(events), |Exec(events).insts|)
    ensures var s' := Exec(events + more);
      |s'.insts| == |Exec(events).insts| && forall i | 0 <= i < |s'.insts| :: !Unfinished(s', i)
    decreases Todo(Exec(events), |Exec(events).insts|)
  {
    hide Exec, Todo, Unfinished, Step, Enabled;
    var s := Exec(events);
    TodoAtMost(s, |s.insts|);
    more := [];
    assert events + more == events;
    if n :| 0 <= n < |s.insts| && Unfinished(s, n) {
      var e := NeverStuck(events, n);
      EventsFinish(events, e);
      ExecMore(events, e);
      var rest := WindowDrains(events + [e]);
      more := [e] + rest;
      UsefulFirst(events, e, rest);
      assert events + more == events + [e] + rest;
    }
  }

  // ---------- what an execution leaves behind ----------

  /** f picks entries of q, going forward. */
  predicate Picks(f: seq<nat>, q: seq<Dep>, r: seq<Dep>) {
    && |f| == |r|
    && (forall j | 0 <= j < |f| :: f[j] < |q| && q[f[j]] == r[j])
    && (forall j, k | 0 <= j < k < |f| :: f[j] < f[k])
  }

  lemma {:induction false} StayingInOrder(s: State, p: nat, n: nat) returns (f: seq<nat>)
    requires Shape(s) && p < |s.insts| && n <= |s.insts[p].pending|
    ensures Picks(f, s.insts[p].pending, Staying(s, p, n)) && forall j | 0 <= j < |f| :: f[j] < n
  {
    f := [];
    if n > 0 {
      f := StayingInOrder(s, p, n - 1);
      if Stays(s, p, s.insts[p].pending[n - 1]) { f := f + [n - 1]; }
    }
  }

  /** Execution goes once through the list and leaves in it exactly the loads of other contexts, in their order. */
  lemma ExecuteLeavesRemote(events: seq<Event>, p: nat) returns (f: seq<nat>)
    requires p < |Exec(events).insts|
    ensures var s := Exec(events); var list, list' := s.insts[p].pending, Execute(s, p).insts[p].pending;
      && Picks(f, list, list')
      && (forall dep :: dep in list' <==> dep in list && dep.c < |s.insts| && Remote(s.descs, dep.c, dep.second, p))
  {
    var s := Exec(events);
    KeptAlways(events);
    var list := s.insts[p].pending;
    ExecuteAt(s, p, p);
    f := StayingInOrder(s, p, |list|);
    assert list[..|list|] == list;
    hide InstsRight, AliasRight, StoresRight, Execute, Given, Frees, Staying, Picks;
    forall dep ensures dep in Staying(s, p, |list|) <==> dep in list && dep.c < |s.insts| && Remote(s.descs, dep.c, dep.second, p) {
      StayingHas(s, p, |list|, dep);
      assert LinkRight(s, p, dep);
      if dep in list { StaysRemote(s, p, dep.c, dep.second); }
    }
  }
}
