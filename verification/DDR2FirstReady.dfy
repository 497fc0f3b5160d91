/**
 When the first-ready scheduler serves everything, exactly, once nothing more arrives: where rows
 are not held open, two requests can stop the channel. With one slot it serves whatever arrives.
 */
module DDR2FirstReady {
  import opened Options
  import opened DDR2State
  import opened DDR2Trace
  import opened DDR2Rows
  import opened DDR2Queue
  import opened DDR2Service
  import opened DDR2Waiting
  import opened DDR2Bus
  import opened DDR2Conflict
  import opened DDR2Starvation
  import opened DDR2Draining

  // ---------- where rows are not held ----------

  /** Two references for different rows of a bank, and nothing else; the row of the older one is closed, or has been open
      for so short a time that it can neither be read nor, but for the slack, be precharged. */
  predicate Stuck(cfg: Config, ch: Chan, a: nat, b: nat, slack: nat)
    requires Shape(cfg, ch)
  {
    && ch.arrivals == [] && a < cfg.queueSize && b < cfg.queueSize && a != b
    && ch.q[a].valid && ch.q[b].valid && (forall i | 0 <= i < |ch.q| && i != a && i != b :: !ch.q[i].valid)
    && ch.q[a].rank == 0 && ch.q[a].bank == 0 && ch.q[b].rank == 0 && ch.q[b].bank == 0
    && ch.q[a].row != ch.q[b].row && Before(ch.q, a, b)
    && StuckBank(cfg.t, BankAt(ch, 0, 0), ch.q[a].row, ch.clock, slack)
  }

  predicate StuckBank(t: Timing, k: Bank, row: int, now: nat, slack: nat) {
    && now >= k.lastRd + t.tRTP && now >= k.lastWr + t.tWR + t.tWL + t.Burst()
    && (k.active ==> k.openRow == row && now < k.lastAct + Max(1, t.tRAS) + slack)
  }

  /** Whichever command goes, it is an activate for the older one, or a precharge for the younger one. */
  lemma StuckChoice(cfg: Config, ch: Chan, a: nat, b: nat, f: nat)
    requires Fit(cfg, ch) && !HoldsRows(cfg) && Stuck(cfg, ch, a, b, 1) && Best(cfg, ch, f)
    requires ch.q[a].ts < ch.clock
    ensures f == (if BankAt(ch, 0, 0).active then b else a)
    ensures CmdFor(cfg, ch, f).kind == if f == b then Pre else Act
  {
    NeedsWhat(cfg, ch, a);
    NeedsWhat(cfg, ch, b);
    var k := BankAt(ch, 0, 0);
    assert f == a || f == b;
    if k.active {
      assert FlagsRight(ch.q[a], k) && FlagsRight(ch.q[b], k);
    } else {
      assert FlagsRight(ch.q[a], k) && FlagsRight(ch.q[b], k);
      assert Candidate(cfg, ch, b) ==> Candidate(cfg, ch, a);
    }
  }

  /** The younger one's precharge goes as soon as tRAS lets it. */
  lemma StuckPreGoes(cfg: Config, ch: Chan, a: nat, b: nat)
    requires Fit(cfg, ch) && Stuck(cfg, ch, a, b, 1) && BankAt(ch, 0, 0).active && ch.q[b].ts < ch.clock
    requires ch.clock >= BankAt(ch, 0, 0).lastAct + Max(1, cfg.t.tRAS)
    ensures Candidate(cfg, ch, b)
  {
    assert FlagsRight(ch.q[b], BankAt(ch, 0, 0));
  }

  lemma StuckDecides(cfg: Config, ch: Chan, a: nat, b: nat)
    requires Fit(cfg, ch) && !HoldsRows(cfg) && Stuck(cfg, ch, a, b, 1) && ch.q[a].ts < ch.clock && ch.q[b].ts < ch.clock
    ensures var o := ScheduleFrFcfs(cfg, ch); o.done.None? && Stuck(cfg, o.ch, a, b, 0)
  {
    FirstReadyServes(cfg, ch);
    var o := ScheduleFrFcfs(cfg, ch);
    if o.cmd.None? {
      var i := Decide(cfg, FrFcfs, ch);
      if BankAt(ch, 0, 0).active && ch.clock >= BankAt(ch, 0, 0).lastAct + Max(1, cfg.t.tRAS) { StuckPreGoes(cfg, ch, a, b); }
    } else {
      var f := FrChoice(cfg, ch).value;
      StuckChoice(cfg, ch, a, b, f);
      StuckCommand(cfg, ch, a, b, f);
    }
  }

  lemma StuckCommand(cfg: Config, ch: Chan, a: nat, b: nat, f: nat)
    requires Fit(cfg, ch) && Stuck(cfg, ch, a, b, 1) && Ready(cfg, ch, f)
    requires f == (if BankAt(ch, 0, 0).active then b else a) && CmdFor(cfg, ch, f).kind == if f == b then Pre else Act
    ensures var o := Issue(cfg, ch, f); o.done.None? && Stuck(cfg, o.ch, a, b, 0)
  {
    RowCommand(cfg, ch, f);
    var o, c := Issue(cfg, ch, f), CmdFor(cfg, ch, f);
    assert BankAt(o.ch, 0, 0) == BankAfter(BankAt(ch, 0, 0), c);
    assert SameRef(ch.q[a], o.ch.q[a]) && SamePlace(ch.q[a], o.ch.q[a]);
    assert SameRef(ch.q[b], o.ch.q[b]) && SamePlace(ch.q[b], o.ch.q[b]);
    forall i | 0 <= i < |o.ch.q| && i != a && i != b ensures !o.ch.q[i].valid { assert SameRef(ch.q[i], o.ch.q[i]); }
    hide Issue, Fit;
  }

  lemma StuckCycle(cfg: Config, r: Run, a: nat, b: nat)
    requires Sound(cfg, r) && Shape(cfg, r.ch) && !HoldsRows(cfg) && Stuck(cfg, r.ch, a, b, 0)
    ensures var r' := Step(cfg, r, Cycle(FrFcfs)); Stuck(cfg, r'.ch, a, b, 0) && r'.done == r.done
  {
    FrStep(cfg, r);
    SoundFits(cfg, r);
    SettledAdvance(cfg, r.ch);
    StuckDecides(cfg, Advance(cfg, r.ch), a, b);
  }

  lemma {:induction false} StuckForever(cfg: Config, r: Run, a: nat, b: nat, n: nat)
    requires Sound(cfg, r) && Shape(cfg, r.ch) && !HoldsRows(cfg) && Stuck(cfg, r.ch, a, b, 0)
    ensures Stuck(cfg, Later(cfg, r, n).ch, a, b, 0) && Later(cfg, r, n).done == r.done
  {
    hide Sound, Later, Step, Stuck, HoldsRows;
    if n > 0 {
      StuckForever(cfg, r, a, b, n - 1);
      LaterNext(cfg, r, n - 1);
      LaterSound(cfg, r, n - 1);
      StuckCycle(cfg, Later(cfg, r, n - 1), a, b);
    } else {
      LaterNext(cfg, r, 0);
    }
  }

  // ---------- how it gets stuck ----------

  /** Two requests for different rows of the first bank, which is closed, wait outside an empty queue. */
  predicate Colliding(cfg: Config, ch: Chan) {
    && Shape(cfg, ch) && Idle(cfg, ch.(arrivals := [])) && !BankAt(ch, 0, 0).active && ch.clock >= LastCmd(ch) + PreBound(cfg.t)
    && |ch.arrivals| == 2 && ch.arrivals[0].pAddr == 0 && ch.arrivals[1].pAddr == ConflictAddr(cfg)
  }

  /** The two slots they take, in order. */
  lemma TwoEnter(cfg: Config, ch: Chan) returns (a: nat, b: nat)
    requires Fit(cfg, ch) && cfg.queueSize >= 2 && Colliding(cfg, ch)
    ensures var ch1 := Prepare(cfg, ch); Stuck(cfg, ch1, a, b, 0) && ch1.q[a].ts == ch1.clock && ch1.q[b].ts == ch1.clock
  {
    AllFree(cfg, ch);
    var c0 := Advance(cfg, ch);
    var c1 := Enqueue(cfg, c0);
    var c2 := Enqueue(cfg, c1);
    assert EnqueueAll(cfg, c2) == c2;
    assert EnqueueAll(cfg, c1) == c2;
    assert Prepare(cfg, ch) == c2;
    ConflictDecodes(cfg);
    hide ConflictAddr;
    assert BankAt(c2, 0, 0) == BankAt(ch, 0, 0);
    var x, y := ch.free[0], ch.free[1];
    a, b := if x < y then x else y, if x < y then y else x;
  }

  lemma NobodyEligible(cfg: Config, ch1: Chan)
    requires SlotsKept(cfg, ch1) && forall i | 0 <= i < |ch1.q| && ch1.q[i].valid :: ch1.q[i].ts == ch1.clock
    ensures ScheduleFrFcfs(cfg, ch1) == Outcome(ch1, None, None)
  {
    var i := Decide(cfg, FrFcfs, ch1);
  }

  lemma CollisionCycle(cfg: Config, r: Run) returns (a: nat, b: nat)
    requires Sound(cfg, r) && Shape(cfg, r.ch) && cfg.queueSize >= 2 && Colliding(cfg, r.ch)
    ensures var r' := Step(cfg, r, Cycle(FrFcfs)); Stuck(cfg, r'.ch, a, b, 0) && r'.done == r.done && r'.arrived == r.arrived
  {
    SoundFits(cfg, r);
    a, b := TwoEnter(cfg, r.ch);
    SoundPrepare(cfg, r);
    FrStep(cfg, r);
    hide Fit, Colliding, Prepare;
    NobodyEligible(cfg, Prepare(cfg, r.ch));
  }

  /** A new channel, left alone until no guard holds, to which two such requests come. */
  lemma Collision(cfg: Config) returns (events: seq<Event>)
    requires cfg.Valid()
    ensures var r := Exec(cfg, events); Colliding(cfg, r.ch) && r.done == [] && |r.arrived| == 2
  {
    var start, e := Exec(cfg, []), Cycle(FrFcfs);
    var n: nat := PreBound(cfg.t);
    assert Idle(cfg, start.ch) && LastCmd(start.ch) == 0 && BankAt(start.ch, 0, 0) == NEW_BANK;
    IdleAlong(cfg, start, n);
    var r, x, y := RunFrom(cfg, start, Repeat(n, e)), Arrival(0, MemRead), Arrival(ConflictAddr(cfg), MemRead);
    OneEvent(cfg, r, x);
    OneEvent(cfg, Step(cfg, r, x), y);
    RunFromConcat(cfg, r, [x], [y]);
    RunFromConcat(cfg, start, Repeat(n, e), [x] + [y]);
    events := Repeat(n, e) + ([x] + [y]);
  }

  /** Where rows are not held, two requests for one bank can stop the whole channel for good: each time the row of the
      older one is opened, the younger one's precharge closes it before it can be read. */
  lemma FirstReadyStops(cfg: Config) returns (prefix: seq<Event>)
    requires cfg.Valid() && !HoldsRows(cfg)
    ensures |Exec(cfg, prefix).arrived| == 2
    ensures forall m: nat :: Exec(cfg, prefix + Repeat(m, Cycle(FrFcfs))).done == []
  {
    var e, start := Cycle(FrFcfs), Exec(cfg, []);
    var before := Collision(cfg);
    var r := Exec(cfg, before);
    SoundStart(cfg);
    SoundRun(cfg, start, before);
    var a, b := CollisionCycle(cfg, r);
    SoundStep(cfg, r, e);
    OneEvent(cfg, r, e);
    RunFromConcat(cfg, start, before, [e]);
    prefix := before + [e];
    hide Exec, Sound, Colliding, Stuck, Step, HoldsRows, Later, Repeat;
    forall m: nat ensures Exec(cfg, prefix + Repeat(m, e)).done == [] {
      LaterExec(cfg, prefix, m);
      StuckForever(cfg, Exec(cfg, prefix), a, b, m);
    }
  }

  // ---------- the exact condition ----------

  lemma NotServed(cfg: Config, prefix: seq<Event>, m: nat)
    requires cfg.Valid() && Exec(cfg, prefix).arrived != [] && Exec(cfg, prefix + Repeat(m, Cycle(FrFcfs))).done == []
    ensures !AllServed(cfg, prefix, m)
  {
    var x := Exec(cfg, prefix).arrived[0];
    assert x in Exec(cfg, prefix).arrived;
    assert DoneCount([], x) == 0;
  }

  ghost predicate ServedSometime(cfg: Config, prefix: seq<Event>)
    requires cfg.Valid()
  {
    exists m: nat :: AllServed(cfg, prefix, m)
  }

  /** Once nothing more arrives, the first-ready scheduler serves all that is queued or waits, wherever a run has got to:
      within a bound, or at all, if and only if there is one slot or tRCD is at most tRAS (or 1). */
  lemma FirstReadyServesExactly(cfg: Config)
    requires cfg.Valid()
    ensures (forall prefix, m: nat | m >= ServedWithin(cfg, Exec(cfg, prefix).ch) :: AllServed(cfg, prefix, m))
              <==> cfg.queueSize == 1 || cfg.t.tRCD <= Max(1, cfg.t.tRAS)
    ensures (forall prefix :: ServedSometime(cfg, prefix))
              <==> cfg.queueSize == 1 || cfg.t.tRCD <= Max(1, cfg.t.tRAS)
  {
    hide Exec, AllServed, ServedWithin, Repeat;
    if HoldsRows(cfg) {
      forall prefix, m: nat | m >= ServedWithin(cfg, Exec(cfg, prefix).ch) ensures AllServed(cfg, prefix, m) {
        FirstReadyServesAll(cfg, prefix, m);
      }
      forall prefix ensures ServedSometime(cfg, prefix) {
        var m := EnoughCycles(cfg, prefix);
        FirstReadyServesAll(cfg, prefix, m);
      }
    } else {
      var prefix := FirstReadyStops(cfg);
      forall m: nat ensures !AllServed(cfg, prefix, m) {
        assert Exec(cfg, prefix + Repeat(m, Cycle(FrFcfs))).done == [];
        NotServed(cfg, prefix, m);
      }
      assert !ServedSometime(cfg, prefix);
      var m := EnoughCycles(cfg, prefix);
      assert !AllServed(cfg, prefix, m);
    }
  }

  lemma EnoughCycles(cfg: Config, prefix: seq<Event>) returns (m: nat)
    requires cfg.Valid()
    ensures m >= ServedWithin(cfg, Exec(cfg, prefix).ch)
  {
    var w: int := ServedWithin(cfg, Exec(cfg, prefix).ch);
    m := if w >= 0 then w else 0;
  }

  // ---------- one slot, while requests keep arriving ----------

  /** With one slot the two schedulers are the same. */
  lemma OneSlotSame(cfg: Config, p: Policy, ch: Chan)
    requires SlotsKept(cfg, ch) && cfg.queueSize == 1
    ensures Schedule(cfg, p, ch) == Schedule(cfg, Fcfs, ch)
  {
    FirstReadyServes(cfg, ch);
    PickIsFirst(ch.q, ValidOnes(ch), ch.clock, 1);
    var i := Decide(cfg, FrFcfs, ch);
    var z: nat := 0;
    assert z in ch.free <==> !ch.q[z].valid;
    if Ready(cfg, ch, 0) && ch.q[0].ts < ch.clock { assert Candidate(cfg, ch, 0); }
  }

  function AsFcfs(events: seq<Event>): (r: seq<Event>)
    ensures |r| == |events| && AllFcfs(r)
  {
    seq(|events|, k requires 0 <= k < |events| => if events[k].Cycle? then Cycle(Fcfs) else events[k])
  }

  lemma {:induction false} OneSlotRuns(cfg: Config, events: seq<Event>)
    requires cfg.Valid() && cfg.queueSize == 1
    ensures Exec(cfg, events) == Exec(cfg, AsFcfs(events))
  {
    if events != [] {
      var before, e := events[..|events| - 1], events[|events| - 1];
      OneSlotRuns(cfg, before);
      assert AsFcfs(events)[..|events| - 1] == AsFcfs(before);
      if e.Cycle? {
        SoundStart(cfg);
        SoundRun(cfg, Exec(cfg, []), before);
        PrepareAt(cfg, Exec(cfg, before).ch);
        OneSlotSame(cfg, e.p, Prepare(cfg, Exec(cfg, before).ch));
      }
    }
  }

  lemma AsFcfsParts(a: seq<Event>, b: seq<Event>)
    ensures AsFcfs(a + b) == AsFcfs(a) + AsFcfs(b)
  {
  }

  /** So with one slot, under any mix of the two and whatever arrives, every waiting request completes, once, in time. */
  lemma OneSlotServes(cfg: Config, prefix: seq<Event>, events: seq<Event>, p: nat)
    requires cfg.Valid() && cfg.queueSize == 1 && p < |Exec(cfg, prefix).ch.arrivals|
    requires Cycles(events) >= (p + 3) * (Span(cfg.t) + 1)
    ensures var r, r' := Exec(cfg, prefix), Exec(cfg, prefix + events);
      CompletedLater(r, r', r.ch.arrivals[p]) && DoneOnce(r', r.ch.arrivals[p])
  {
    AsFcfsParts(prefix, events);
    hide Exec, AsFcfs, Span, Cycles, CompletedLater, DoneOnce;
    OneSlotRuns(cfg, prefix);
    OneSlotRuns(cfg, prefix + events);
    CyclesAsFcfs(events);
    assert p + 2 * cfg.queueSize + 1 == p + 3;
    WaitingIsServed(cfg, AsFcfs(prefix), AsFcfs(events), p);
  }

  lemma {:induction false} CyclesAsFcfs(events: seq<Event>)
    ensures Cycles(AsFcfs(events)) == Cycles(events)
  {
    if events != [] {
      var before := events[..|events| - 1];
      CyclesAsFcfs(before);
      assert AsFcfs(events)[..|events| - 1] == AsFcfs(before);
    }
  }
}
