/**
 Two exact statements: when bursts can overlap on the data bus at all, and when the
 first-ready scheduler leaves a cycle unused.
 */
module DDR2Bus {
  import opened Options
  import opened DDR2State
  import opened DDR2Trace
  import opened DDR2Rows
  import opened DDR2Queue
  import opened DDR2Service
  import opened Pigeonhole

  // ---------- the first-ready scheduler ----------

  /** A reference that may send its command now: ready, and in the queue since before this cycle. */
  predicate Candidate(cfg: Config, ch: Chan, i: nat)
    requires Shape(cfg, ch)
  {
    Ready(cfg, ch, i) && ch.q[i].ts < ch.clock
  }

  predicate CasCandidate(cfg: Config, ch: Chan, i: nat)
    requires Shape(cfg, ch)
  {
    Candidate(cfg, ch, i) && Needs(ch.q[i]).value.Cas()
  }

  lemma FullFreeListMeansEmpty(cfg: Config, ch: Chan, i: nat)
    requires SlotsKept(cfg, ch) && |ch.free| == cfg.queueSize && i < cfg.queueSize
    ensures !ch.q[i].valid
  {
    if i !in ch.free {
      var more := ch.free + [i];
      DifferentBelow(more, cfg.queueSize);
    }
  }

  /** The reference to serve: the oldest candidate for a read or write if there is one, else the oldest candidate. */
  predicate Best(cfg: Config, ch: Chan, f: nat)
    requires Shape(cfg, ch)
  {
    && Candidate(cfg, ch, f)
    && (forall i: nat | i < cfg.queueSize && i != f && CasCandidate(cfg, ch, i) ::
          CasCandidate(cfg, ch, f) && Before(ch.q, f, i))
    && (forall i: nat | i < cfg.queueSize && i != f && Candidate(cfg, ch, i) && !CasCandidate(cfg, ch, f) ::
          Before(ch.q, f, i))
  }

  lemma ChoiceIsBest(cfg: Config, ch: Chan)
    requires Shape(cfg, ch)
    ensures FrChoice(cfg, ch).None? ==> forall i: nat | i < cfg.queueSize :: !Candidate(cfg, ch, i)
    ensures FrChoice(cfg, ch).Some? ==> Best(cfg, ch, FrChoice(cfg, ch).value)
  {
    var cas, other := ReadyOnes(cfg, ch, true), ReadyOnes(cfg, ch, false);
    PickIsFirst(ch.q, cas, ch.clock, |ch.q|);
    PickIsFirst(ch.q, other, ch.clock, |ch.q|);
    forall i: nat | i < cfg.queueSize
      ensures Ready(cfg, ch, i) <==> cas[i] || other[i]
      ensures CasCandidate(cfg, ch, i) <==> cas[i] && ch.q[i].ts < ch.clock
    {
    }
  }

  /** The first-ready scheduler sends no command exactly when no reference could; otherwise it serves the best. */
  lemma FirstReadyServes(cfg: Config, ch: Chan)
    requires SlotsKept(cfg, ch)
    ensures var o := ScheduleFrFcfs(cfg, ch);
      && (o.cmd.None? <==> forall i: nat | i < cfg.queueSize :: !Candidate(cfg, ch, i))
      && (o.cmd.Some? ==> FrChoice(cfg, ch).Some? && Best(cfg, ch, FrChoice(cfg, ch).value)
                          && o == Issue(cfg, ch, FrChoice(cfg, ch).value))
  {
    ChoiceIsBest(cfg, ch);
    if |ch.free| == cfg.queueSize {
      forall i: nat | i < cfg.queueSize ensures !Candidate(cfg, ch, i) { FullFreeListMeansEmpty(cfg, ch, i); }
    }
  }

  // ---------- when bursts overlap ----------

  /** The least distance between two reads of the same open row. With one slot, the cycle after a read takes the next
      request in, and only the one after that may serve it. */
  function ReadGap(cfg: Config): int {
    Max(if cfg.queueSize == 1 then 2 else 1, cfg.t.tCCD)
  }

  /** With one slot: while the last cycle's read or write is fresh, the slot is free; so two are two cycles apart. */
  predicate OneSlot(cfg: Config, r: Run)
    requires Shape(cfg, r.ch)
  {
    && (forall k | 0 <= k < |r.trace| && r.trace[k].kind.Cas() && r.trace[k].time == r.ch.clock :: !r.ch.q[0].valid)
    && (forall i, j | 0 <= i < j < |r.trace| && r.trace[i].kind.Cas() && r.trace[j].kind.Cas() ::
          r.trace[j].time - r.trace[i].time >= 2)
  }

  lemma OneSlotSends(cfg: Config, p: Policy, ch1: Chan)
    requires Shape(cfg, ch1) && cfg.queueSize == 1
    ensures var o := Schedule(cfg, p, ch1);
      && o.ch.clock == ch1.clock
      && (o.cmd.Some? ==>
            && ch1.q[0].valid && ch1.q[0].ts < ch1.clock && o.cmd.value.time == ch1.clock
            && (o.cmd.value.kind.Cas() ==> !o.ch.q[0].valid))
  {
    hide Schedule;
    var i := Decide(cfg, p, ch1);
    if i.Some? { IssueTimes(cfg, ch1, i.value); }
    hide Issue;
  }

  lemma IssueTimes(cfg: Config, ch: Chan, i: nat)
    requires Shape(cfg, ch) && Ready(cfg, ch, i)
    ensures var o := Issue(cfg, ch, i);
      && o.ch.clock == ch.clock && o.cmd.Some? && o.cmd.value.time == ch.clock && |o.ch.q| == |ch.q|
      && (o.cmd.value.kind.Cas() ==> !o.ch.q[i].valid)
  {
    hide CanIssue;
  }

  lemma OneSlotServed(cfg: Config, p: Policy, ch: Chan)
    requires SlotsKept(cfg, ch) && Stamped(ch) && cfg.queueSize == 1
    ensures var o := Tick(cfg, p, ch);
      && o.ch.clock == ch.clock + 1
      && (o.cmd.Some? ==>
            && ch.q[0].valid && o.cmd.value.time == o.ch.clock
            && (o.cmd.value.kind.Cas() ==> !o.ch.q[0].valid))
  {
    PrepareAt(cfg, ch);
    hide Prepare, Schedule;
    OneSlotSends(cfg, p, Prepare(cfg, ch));
  }

  lemma OneSlotCycle(cfg: Config, r: Run, p: Policy)
    requires Sound(cfg, r) && cfg.queueSize == 1 && OneSlot(cfg, r)
    ensures OneSlot(cfg, Step(cfg, r, Cycle(p)))
  {
    OneSlotServed(cfg, p, r.ch);
    forall k | 0 <= k < |r.trace| ensures r.trace[k].time <= r.ch.clock { assert Covers(cfg, r.ch, r.trace[k]); }
    hide Sound, Tick;
    var r' := Step(cfg, r, Cycle(p));
    assert OneSlot(cfg, r');
  }

  lemma {:induction false} OneSlotRun(cfg: Config, events: seq<Event>)
    requires cfg.Valid() && cfg.queueSize == 1
    ensures Sound(cfg, Exec(cfg, events)) && OneSlot(cfg, Exec(cfg, events))
  {
    SoundStart(cfg);
    SoundRun(cfg, Exec(cfg, []), events);
    if events != [] {
      OneSlotRun(cfg, events[..|events| - 1]);
      if events[|events| - 1].Cycle? { OneSlotCycle(cfg, Exec(cfg, events[..|events| - 1]), events[|events| - 1].p); }
    }
  }

  /** If the least distance between two reads covers a burst, no two bursts of a run overlap on the data bus, and data
      moves in the order the commands were sent. */
  lemma BurstsNeverOverlap(cfg: Config, events: seq<Event>)
    requires cfg.Valid() && ReadGap(cfg) >= cfg.t.Burst()
    ensures BurstsDisjoint(cfg.t, Exec(cfg, events).trace)
  {
    var trace := Exec(cfg, events).trace;
    TimingSafety(cfg, events);
    if cfg.queueSize == 1 { OneSlotRun(cfg, events); }
    forall i, j | 0 <= i < j < |trace| && trace[i].kind.Cas() && trace[j].kind.Cas()
      ensures BurstStart(cfg.t, trace[i]) + cfg.t.Burst() <= BurstStart(cfg.t, trace[j])
    {
      assert trace[j].time - trace[i].time >= MinGap(cfg.t, trace[i], trace[j]);
    }
  }

  /** A queued read of row `row` that needs nothing but its turn. */
  predicate NeedsRead(m: MemRef, c: Cmd) {
    && m.valid && m.request.Some? && m.rank == c.rank && m.bank == c.bank && m.row == c.row
    && !m.prePending && !m.actPending && m.rdPending
  }

  /** After the read c, another read of the same row is alone in the queue; no guard holds it past c plus the gap. */
  predicate PrimedChan(cfg: Config, ch: Chan, s: nat, c: Cmd) {
    && Shape(cfg, ch) && InRange(cfg, c) && ch.arrivals == []
    && s < cfg.queueSize && NeedsRead(ch.q[s], c) && ch.q[s].ts <= ch.clock
    && (forall i | 0 <= i < cfg.queueSize && i != s :: !ch.q[i].valid)
    && c.time <= ch.clock < c.time + ReadGap(cfg)
    && CanRd(cfg.t, ch, c.rank, c.bank, c.row, c.time + ReadGap(cfg))
  }

  predicate Primed(cfg: Config, r: Run, s: nat, c: Cmd) {
    Sound(cfg, r) && PrimedChan(cfg, r.ch, s, c) && c.kind.Rd? && c in r.trace
  }

  /** The run holds two reads at most the gap apart. */
  ghost predicate CloseReads(cfg: Config, trace: seq<Cmd>) {
    exists c, d :: c in trace && d in trace && c.kind.Rd? && d.kind.Rd? && c.time < d.time <= c.time + ReadGap(cfg)
  }

  lemma QuietPrepare(cfg: Config, ch: Chan)
    requires Shape(cfg, ch) && ch.arrivals == []
    ensures Prepare(cfg, ch) == Advance(cfg, ch)
  {
  }

  /** The power update leaves every guard as it was. */
  lemma AdvanceKeepsGuard(cfg: Config, ch: Chan, c: Cmd)
    requires Shape(cfg, ch) && InRange(cfg, c) && CanIssue(cfg.t, ch, c)
    ensures CanIssue(cfg.t, Advance(cfg, ch), c)
  {
    var ch1 := Advance(cfg, ch);
    forall i | 0 <= i < |ch.ranks|
      ensures ch1.ranks[i].banks == ch.ranks[i].banks && ch1.ranks[i].lastRd == ch.ranks[i].lastRd && ch1.ranks[i].lastWr == ch.ranks[i].lastWr
    {
    }
  }

  lemma PrimedServe(cfg: Config, ch: Chan, s: nat, c: Cmd)
    requires PrimedChan(cfg, ch, s, c)
    ensures var ch1 := Advance(cfg, ch); var o := ScheduleFcfs(cfg, ch1);
      || (o.cmd.Some? && o.cmd.value.kind.Rd? && o.cmd.value.time == ch1.clock)
      || (o == Outcome(ch1, None, None) && PrimedChan(cfg, ch1, s, c))
  {
    var ch1 := Advance(cfg, ch);
    AdvanceKeepsGuard(cfg, ch, Cmd(Rd, c.rank, c.bank, c.row, c.time + ReadGap(cfg)));
    PickUnique(ch1, ch1.clock, s);
    if !Ready(cfg, ch1, s) { assert ch1.clock != c.time + ReadGap(cfg); }
  }

  lemma PrimedCycle(cfg: Config, r: Run, s: nat, c: Cmd)
    requires Primed(cfg, r, s, c)
    ensures var r' := Step(cfg, r, Cycle(Fcfs));
      CloseReads(cfg, r'.trace) || (Primed(cfg, r', s, c) && r'.ch.clock == r.ch.clock + 1)
  {
    var ch1 := Advance(cfg, r.ch);
    QuietPrepare(cfg, r.ch);
    SoundStep(cfg, r, Cycle(Fcfs));
    PrimedServe(cfg, r.ch, s, c);
    var o := ScheduleFcfs(cfg, ch1);
    var r' := Step(cfg, r, Cycle(Fcfs));
    assert r'.ch == o.ch && r'.trace == Log(r.trace, o.cmd);
    if o.cmd.Some? { assert c in r'.trace && o.cmd.value in r'.trace; }
  }

  lemma {:induction false} PrimedReads(cfg: Config, r: Run, s: nat, c: Cmd) returns (events: seq<Event>)
    requires Primed(cfg, r, s, c)
    ensures CloseReads(cfg, RunFrom(cfg, r, events).trace)
    decreases c.time + ReadGap(cfg) - r.ch.clock
  {
    var e := Cycle(Fcfs);
    var r' := Step(cfg, r, e);
    PrimedCycle(cfg, r, s, c);
    OneEvent(cfg, r, e);
    if CloseReads(cfg, r'.trace) {
      events := [e];
    } else {
      var rest := PrimedReads(cfg, r', s, c);
      events := [e] + rest;
      RunFromConcat(cfg, r, [e], rest);
    }
  }

  /** Two reads of the same row, and nothing else, in the system. */
  predicate TwoReads(cfg: Config, ch: Chan, a: nat, b: nat) {
    && |ch.q| == cfg.queueSize && ch.arrivals == [] && a < cfg.queueSize && b < cfg.queueSize && a != b
    && ch.q[a].valid && ch.q[b].valid && ch.q[a].isRead && ch.q[b].isRead
    && ch.q[a].rank == ch.q[b].rank && ch.q[a].bank == ch.q[b].bank && ch.q[a].row == ch.q[b].row
    && (forall i | 0 <= i < cfg.queueSize && i != a && i != b :: !ch.q[i].valid)
  }

  /** A read that can be sent now leaves the next read of its row no longer than the gap to wait. */
  lemma ReadLeavesGap(cfg: Config, ch: Chan, c: Cmd)
    requires Shape(cfg, ch) && InRange(cfg, c) && c.kind.Rd? && CanRd(cfg.t, ch, c.rank, c.bank, c.row, c.time)
    ensures Shape(cfg, ChanAfter(ch, c))
    ensures CanRd(cfg.t, ChanAfter(ch, c), c.rank, c.bank, c.row, c.time + ReadGap(cfg))
  {
    var ch2 := ChanAfter(ch, c);
    assert forall i | 0 <= i < |ch2.ranks| && i != c.rank :: ch2.ranks[i] == ch.ranks[i];
  }

  /** Once one of the two is read, the other is primed. */
  lemma ReadPrimes(cfg: Config, ch1: Chan, f: nat, s: nat)
    requires Shape(cfg, ch1) && Flags(cfg, ch1) && Stamped(ch1) && TwoReads(cfg, ch1, f, s)
    requires Ready(cfg, ch1, f) && Needs(ch1.q[f]).value.Cas()
    ensures CmdFor(cfg, ch1, f).kind.Rd? && PrimedChan(cfg, Issue(cfg, ch1, f).ch, s, CmdFor(cfg, ch1, f))
  {
    var c := CmdFor(cfg, ch1, f);
    assert FlagsRight(ch1.q[f], BankAt(ch1, ch1.q[f].rank, ch1.q[f].bank));
    assert FlagsRight(ch1.q[s], BankAt(ch1, ch1.q[s].rank, ch1.q[s].bank));
    ReadLeavesGap(cfg, ch1, c);
    assert ChanAfter(ch1, c).ranks == Issue(cfg, ch1, f).ch.ranks;
  }

  lemma TwoReadsServe(cfg: Config, ch1: Chan, f: nat, s: nat)
    requires Shape(cfg, ch1) && Flags(cfg, ch1) && Stamped(ch1) && TwoReads(cfg, ch1, f, s) && Oldest(ch1) == Some(f)
    ensures var o := ScheduleFcfs(cfg, ch1);
      || (o.cmd.Some? && o.cmd.value.kind.Rd? && PrimedChan(cfg, o.ch, s, o.cmd.value))
      || (o.done == None && TwoReads(cfg, o.ch, f, s))
  {
    if Ready(cfg, ch1, f) && Needs(ch1.q[f]).value.Cas() { ReadPrimes(cfg, ch1, f, s); }
  }

  lemma TwoReadsAdvance(cfg: Config, ch: Chan, a: nat, b: nat)
    requires Shape(cfg, ch) && Flags(cfg, ch) && Stamped(ch) && TwoReads(cfg, ch, a, b)
    ensures var ch1 := Advance(cfg, ch);
      && Prepare(cfg, ch) == ch1 && Flags(cfg, ch1) && Stamped(ch1) && TwoReads(cfg, ch1, a, b)
      && (Oldest(ch1) == Some(a) || Oldest(ch1) == Some(b))
  {
    QuietPrepare(cfg, ch);
    var ch1 := Advance(cfg, ch);
    assert forall r | 0 <= r < cfg.numRanks :: ch1.ranks[r].banks == ch.ranks[r].banks;
    PickIsFirst(ch1.q, ValidOnes(ch1), ch1.clock, |ch1.q|);
    assert ValidOnes(ch1)[a];
  }

  lemma TwoReadsCycle(cfg: Config, r: Run, a: nat, b: nat, r': Run) returns (s: nat)
    requires Sound(cfg, r) && TwoReads(cfg, r.ch, a, b) && r' == Step(cfg, r, Cycle(Fcfs)) && Sound(cfg, r')
    ensures || (|r'.trace| > 0 && Primed(cfg, r', s, r'.trace[|r'.trace| - 1]))
            || (TwoReads(cfg, r'.ch, a, b) && r'.done == r.done)
  {
    FcfsStep(cfg, r);
    TwoReadsAdvance(cfg, r.ch, a, b);
    hide Sound;
    var ch1 := Advance(cfg, r.ch);
    var f := Oldest(ch1).value;
    s := if f == a then b else a;
    TwoReadsServe(cfg, ch1, f, s);
  }

  lemma {:induction false} TwoReadsMeet(cfg: Config, r: Run, a: nat, b: nat) returns (events: seq<Event>)
    requires Sound(cfg, r) && TwoReads(cfg, r.ch, a, b)
    ensures CloseReads(cfg, RunFrom(cfg, r, events).trace)
    decreases Measure(cfg, r.ch, a)
  {
    var e := Cycle(Fcfs);
    var r' := Step(cfg, r, e);
    SoundStep(cfg, r, e);
    var s := TwoReadsCycle(cfg, r, a, b, r');
    CycleServes(cfg, r, a);
    OneEvent(cfg, r, e);
    var rest;
    if TwoReads(cfg, r'.ch, a, b) && r'.done == r.done {
      MeasurePositive(cfg, r, a);
      rest := TwoReadsMeet(cfg, r', a, b);
    } else {
      rest := PrimedReads(cfg, r', s, r'.trace[|r'.trace| - 1]);
    }
    events := [e] + rest;
    RunFromConcat(cfg, r, [e], rest);
  }

  /** Two reads of address 0 that arrive together are both queued after one cycle. */
  lemma TwoArrive(cfg: Config) returns (events: seq<Event>)
    requires cfg.Valid() && cfg.queueSize >= 2
    ensures TwoReads(cfg, Exec(cfg, events).ch, 0, 1)
  {
    var start, e := Run(Init(cfg), [], [], []), Arrival(0, MemRead);
    var x, y := Request(0, 0, MemRead), Request(1, 0, MemRead);
    var two := Run(Arrive(Arrive(Init(cfg), x), y), [], [], [x, y]);
    events := [e, e, Cycle(Fcfs)];
    SoundStart(cfg);
    TwoArrivals(cfg, start, e);
    SoundRun(cfg, start, [e, e]);
    assert Sound(cfg, two);
    PrepareTwo(cfg, two.ch, x, y);
    FirstIsOldest(two.ch);
    PreparedKeepsFirst(two.ch, Prepare(cfg, two.ch)) by { PrepareAt(cfg, two.ch); }
    FcfsStep(cfg, two);
    assert events[..2] == [e, e];
    assert Exec(cfg, events) == Step(cfg, two, Cycle(Fcfs));
  }

  lemma TwoArrivals(cfg: Config, r: Run, e: Event)
    requires Shape(cfg, r.ch) && e.Arrival?
    ensures RunFrom(cfg, r, [e, e]) == Step(cfg, Step(cfg, r, e), e)
  {
    assert [e, e][..1] == [e];
    OneEvent(cfg, r, e);
  }

  lemma PrepareTwo(cfg: Config, ch: Chan, x: Request, y: Request)
    requires SlotsKept(cfg, ch) && Stamped(ch) && cfg.queueSize >= 2 && x.IsRead() && y.IsRead() && x.pAddr == y.pAddr
    requires ch.arrivals == [x, y] && |ch.free| >= 2 && ch.free[0] == 0 && ch.free[1] == 1
    requires forall i | 0 <= i < cfg.queueSize :: !ch.q[i].valid
    ensures TwoReads(cfg, Prepare(cfg, ch), 0, 1)
  {
    var c0 := Advance(cfg, ch);
    var c1 := Enqueue(cfg, c0);
    var c2 := Enqueue(cfg, c1);
    assert EnqueueAll(cfg, c2) == c2;
    assert EnqueueAll(cfg, c1) == c2;
    assert Prepare(cfg, ch) == c2;
  }

  // ---------- one read after the other ----------

  /** A read of address 0 holds a slot, and nothing else is in the system. */
  predicate OneRead(cfg: Config, ch: Chan) {
    && cfg.Valid() && |ch.q| == cfg.queueSize && ch.arrivals == []
    && ch.q[0].valid && ch.q[0].isRead && (forall i | 0 < i < |ch.q| :: !ch.q[i].valid)
    && var l := Decode(cfg, 0); ch.q[0].rank == l.rank && ch.q[0].bank == l.bank && ch.q[0].row == l.row
  }

  /** Nothing is in the system, right after the read c of address 0. */
  predicate JustRead(cfg: Config, ch: Chan, c: Cmd) {
    && Shape(cfg, ch) && ch.arrivals == [] && (forall i | 0 <= i < |ch.q| :: !ch.q[i].valid)
    && var l := Decode(cfg, 0);
    && c.kind.Rd? && c.rank == l.rank && c.bank == l.bank && c.row == l.row && c.time == ch.clock
    && BankAt(ch, c.rank, c.bank).active && BankAt(ch, c.rank, c.bank).openRow == c.row
    && CanRd(cfg.t, ch, c.rank, c.bank, c.row, c.time + ReadGap(cfg))
  }

  lemma OneReadServe(cfg: Config, ch1: Chan)
    requires Shape(cfg, ch1) && Flags(cfg, ch1) && Stamped(ch1) && OneRead(cfg, ch1)
    ensures var o := ScheduleFcfs(cfg, ch1);
      || (o.cmd.Some? && JustRead(cfg, o.ch, o.cmd.value))
      || (o.done == None && OneRead(cfg, o.ch))
  {
    assert FlagsRight(ch1.q[0], BankAt(ch1, ch1.q[0].rank, ch1.q[0].bank));
    if Ready(cfg, ch1, 0) && Needs(ch1.q[0]).value.Cas() {
      var c := CmdFor(cfg, ch1, 0);
      ReadLeavesGap(cfg, ch1, c);
      assert ChanAfter(ch1, c).ranks == Issue(cfg, ch1, 0).ch.ranks;
      assert BankAt(ChanAfter(ch1, c), c.rank, c.bank) == BankAfter(BankAt(ch1, c.rank, c.bank), c);
    }
  }

  lemma OneReadAdvance(cfg: Config, ch: Chan)
    requires Shape(cfg, ch) && Flags(cfg, ch) && Stamped(ch) && OneRead(cfg, ch)
    ensures var ch1 := Prepare(cfg, ch); Flags(cfg, ch1) && Stamped(ch1) && OneRead(cfg, ch1)
  {
    QuietPrepare(cfg, ch);
    var ch1 := Advance(cfg, ch);
    assert forall k | 0 <= k < cfg.numRanks :: ch1.ranks[k].banks == ch.ranks[k].banks;
  }

  predicate EndsWithRead(cfg: Config, r: Run) {
    |r.trace| > 0 && JustRead(cfg, r.ch, r.trace[|r.trace| - 1])
  }

  lemma OneReadCycle(cfg: Config, r: Run)
    requires Sound(cfg, r) && OneRead(cfg, r.ch) && 0 < |r.ch.q|
    ensures var r' := Step(cfg, r, Cycle(Fcfs));
      || EndsWithRead(cfg, r')
      || (OneRead(cfg, r'.ch) && 0 < |r'.ch.q| && 0 <= Measure(cfg, r'.ch, 0) < Measure(cfg, r.ch, 0))
  {
    FcfsStep(cfg, r);
    OneReadAdvance(cfg, r.ch);
    OneReadServe(cfg, Prepare(cfg, r.ch));
    SoundStep(cfg, r, Cycle(Fcfs));
    var r' := Step(cfg, r, Cycle(Fcfs));
    hide Measure, Sound, JustRead, ScheduleFcfs, Prepare, Step, SlotsKept;
    CycleServes(cfg, r, 0);
    if OneRead(cfg, r'.ch) { MeasurePositive(cfg, r', 0); }
  }

  lemma {:induction false} OneReadEnds(cfg: Config, r: Run) returns (events: seq<Event>)
    requires Sound(cfg, r) && OneRead(cfg, r.ch) && 0 < |r.ch.q|
    ensures EndsWithRead(cfg, RunFrom(cfg, r, events))
    decreases Measure(cfg, r.ch, 0)
  {
    var e := Cycle(Fcfs);
    var r' := Step(cfg, r, e);
    SoundStep(cfg, r, e);
    OneReadCycle(cfg, r);
    OneEvent(cfg, r, e);
    hide EndsWithRead, OneRead, Sound, Step, Measure;
    if EndsWithRead(cfg, r') {
      events := [e];
    } else {
      var rest := OneReadEnds(cfg, r');
      events := [e] + rest;
      RunFromConcat(cfg, r, [e], rest);
    }
  }

  /** The cycle after that takes the next read of address 0 in, and cannot serve it yet. */
  lemma NextReadPrimes(cfg: Config, ch: Chan, c: Cmd, x: Request)
    requires cfg.queueSize == 1 && SlotsKept(cfg, ch) && JustRead(cfg, ch, c) && x.pAddr == 0 && x.IsRead()
    ensures var ch1 := Prepare(cfg, Arrive(ch, x));
      PrimedChan(cfg, ch1, 0, c) && ScheduleFcfs(cfg, ch1) == Outcome(ch1, None, None)
  {
    var ch0 := Advance(cfg, Arrive(ch, x));
    var z: nat := 0;
    assert z in ch0.free <==> !ch.q[z].valid;
    var ch1 := Enqueue(cfg, ch0);
    assert EnqueueAll(cfg, ch1) == ch1;
    assert Prepare(cfg, Arrive(ch, x)) == ch1;
    AdvanceKeepsGuard(cfg, ch, Cmd(Rd, c.rank, c.bank, c.row, c.time + ReadGap(cfg)));
    assert Advance(cfg, ch).ranks == ch0.ranks == ch1.ranks;
    assert BankAt(ch0, c.rank, c.bank) == BankAt(ch, c.rank, c.bank);
    PickIsFirst(ch1.q, ValidOnes(ch1), ch1.clock, 1);
  }

  lemma OneSlotMeets(cfg: Config, r: Run) returns (events: seq<Event>)
    requires Sound(cfg, r) && cfg.queueSize == 1 && EndsWithRead(cfg, r)
    ensures CloseReads(cfg, RunFrom(cfg, r, events).trace)
  {
    var c := r.trace[|r.trace| - 1];
    var more := [Arrival(0, MemRead), Cycle(Fcfs)];
    var mid := Step(cfg, r, more[0]);
    NextReadPrimes(cfg, r.ch, c, Arriving(r, more[0]));
    FcfsStep(cfg, mid);
    SoundStep(cfg, r, more[0]);
    SoundStep(cfg, mid, more[1]);
    var r' := Step(cfg, mid, more[1]);
    assert more[..1] == [more[0]];
    OneEvent(cfg, r, more[0]);
    assert RunFrom(cfg, r, more) == r';
    assert c in r'.trace;
    var rest := PrimedReads(cfg, r', 0, c);
    events := more + rest;
    RunFromConcat(cfg, r, more, rest);
  }

  lemma OneArrives(cfg: Config) returns (events: seq<Event>)
    requires cfg.Valid()
    ensures OneRead(cfg, Exec(cfg, events).ch)
  {
    events := [Arrival(0, MemRead), Cycle(Fcfs)];
    var x := Request(0, 0, MemRead);
    var one := Run(Arrive(Init(cfg), x), [], [], [x]);
    assert events[..1] == [events[0]];
    OneEvent(cfg, Run(Init(cfg), [], [], []), events[0]);
    assert Exec(cfg, [events[0]]) == one;
    FcfsStep(cfg, one);
    var c1 := Enqueue(cfg, Advance(cfg, one.ch));
    assert EnqueueAll(cfg, c1) == c1;
    assert Prepare(cfg, one.ch) == c1;
    PickIsFirst(c1.q, ValidOnes(c1), c1.clock, |c1.q|);
    assert Exec(cfg, events) == Step(cfg, one, Cycle(Fcfs));
  }

  // ---------- the exact condition ----------

  lemma CloseReadsOverlap(cfg: Config, trace: seq<Cmd>)
    requires forall i, j | 0 <= i < j < |trace| :: trace[i].time < trace[j].time
    requires CloseReads(cfg, trace) && ReadGap(cfg) < cfg.t.Burst()
    ensures !BurstsDisjoint(cfg.t, trace)
  {
    var c, d :| c in trace && d in trace && c.kind.Rd? && d.kind.Rd? && c.time < d.time <= c.time + ReadGap(cfg);
    var i :| 0 <= i < |trace| && trace[i] == c;
    var j :| 0 <= j < |trace| && trace[j] == d;
    assert i < j && BurstStart(cfg.t, trace[i]) + cfg.t.Burst() > BurstStart(cfg.t, trace[j]);
  }

  /** No run of the channel has overlapping bursts if and only if the least distance between reads covers a burst. */
  lemma BurstsDisjointExactly(cfg: Config)
    requires cfg.Valid()
    ensures (forall events :: BurstsDisjoint(cfg.t, Exec(cfg, events).trace)) <==>
              Max(if cfg.queueSize == 1 then 2 else 1, cfg.t.tCCD) >= cfg.t.BL / 2
  {
    if ReadGap(cfg) >= cfg.t.Burst() {
      forall events ensures BurstsDisjoint(cfg.t, Exec(cfg, events).trace) { BurstsNeverOverlap(cfg, events); }
    } else {
      var events := OverlappingRun(cfg);
      assert !BurstsDisjoint(cfg.t, Exec(cfg, events).trace);
    }
  }

  /** Two reads of one row, together or with one slot one after the other, overlap if the least distance between reads
      does not cover a burst. */
  lemma OverlappingRun(cfg: Config) returns (events: seq<Event>)
    requires cfg.Valid() && ReadGap(cfg) < cfg.t.Burst()
    ensures !BurstsDisjoint(cfg.t, Exec(cfg, events).trace)
  {
    var start := Exec(cfg, []);
    SoundStart(cfg);
    var first, rest;
    if cfg.queueSize >= 2 {
      first := TwoArrive(cfg);
      SoundRun(cfg, start, first);
      rest := TwoReadsMeet(cfg, Exec(cfg, first), 0, 1);
    } else {
      var enter := OneArrives(cfg);
      SoundRun(cfg, start, enter);
      var read := OneReadEnds(cfg, Exec(cfg, enter));
      first := enter + read;
      RunFromConcat(cfg, start, enter, read);
      SoundRun(cfg, start, first);
      rest := OneSlotMeets(cfg, Exec(cfg, first));
    }
    hide TwoReads, EndsWithRead, CloseReads, BurstsDisjoint, Sound;
    events := first + rest;
    RunFromConcat(cfg, start, first, rest);
    TimingSafety(cfg, events);
    CloseReadsOverlap(cfg, Exec(cfg, events).trace);
  }
}
