/**
 The first-ready scheduler serves everything, once nothing more arrives, if there is one slot or a
 row stays open long enough for a read or write of it to go before a precharge.
 */
module DDR2Draining {
  import opened Options
  import opened DDR2State
  import opened DDR2Trace
  import opened DDR2Rows
  import opened DDR2Queue
  import opened DDR2Service
  import opened DDR2Waiting
  import opened DDR2Bus
  import opened Products
  import opened Pigeonhole

  /** A row once activated cannot be precharged before it can be read or written, or nobody would. */
  predicate HoldsRows(cfg: Config) {
    cfg.queueSize == 1 || cfg.t.tRCD <= Max(1, cfg.t.tRAS)
  }

  // ---------- the state between two reads or writes ----------

  /** A reference whose row is open. */
  predicate Hit(m: MemRef) {
    m.valid && !m.prePending && !m.actPending
  }

  function LastCas(ch: Chan): int {
    Max(ch.lastRd, ch.lastWr)
  }

  /** Nothing enters the queue before something leaves it. */
  predicate Settled(ch: Chan) {
    ch.free == [] || ch.arrivals == []
  }

  /** The requests that wait or are queued. */
  function Outstanding(cfg: Config, ch: Chan): int {
    |ch.arrivals| + cfg.queueSize - |ch.free|
  }

  /** The longest wait for a precharge or an activate, */
  function RowBound(t: Timing): int {
    Max(PreBound(t), ActBound(t))
  }

  /** and for a read or write of the row just activated. */
  function OpenBound(t: Timing): int {
    Max(1, t.tRCD)
  }

  /** How many of the first n references need a precharge. */
  function Closing(q: seq<MemRef>, n: nat): nat
    requires n <= |q|
  {
    if n == 0 then 0 else Closing(q, n - 1) + (if q[n - 1].valid && q[n - 1].prePending then 1 else 0)
  }

  /** With no read or write held back any more: one goes within this many cycles, */
  function RestBound(cfg: Config): int {
    cfg.queueSize * RowBound(cfg.t) + RowBound(cfg.t) + OpenBound(cfg.t)
  }

  /** and otherwise within this many. */
  function CasWithin(cfg: Config): int {
    CasBound(cfg.t) + RestBound(cfg)
  }

  lemma {:induction false} ClosingAtMost(q: seq<MemRef>, n: nat)
    requires n <= |q|
    ensures Closing(q, n) <= n
  {
    if n > 0 { ClosingAtMost(q, n - 1); }
  }

  lemma {:induction false} ClosingLess(q: seq<MemRef>, q': seq<MemRef>, f: nat, n: nat)
    requires n <= |q| == |q'| && f < |q|
    requires forall i | 0 <= i < |q| && q'[i].valid && q'[i].prePending :: q[i].valid && q[i].prePending && i != f
    requires q[f].valid && q[f].prePending
    ensures Closing(q', n) <= Closing(q, n) - (if f < n then 1 else 0)
  {
    if n > 0 { ClosingLess(q, q', f, n - 1); }
  }

  // ---------- which commands can be sent ----------

  /** A hit can go once the last read or write anywhere and the activate of its row are over. */
  lemma HitGoes(cfg: Config, ch: Chan, c: Cmd)
    requires Shape(cfg, ch) && NoneLater(cfg, ch) && InRange(cfg, c) && c.time == ch.clock && c.kind.Cas()
    requires BankAt(ch, c.rank, c.bank).openRow == c.row
    requires ch.clock >= LastCas(ch) + CasBound(cfg.t) && ch.clock >= BankAt(ch, c.rank, c.bank).lastAct + cfg.t.tRCD
    ensures CanIssue(cfg.t, ch, c)
  {
    forall i | 0 <= i < |ch.ranks| ensures ch.ranks[i].lastRd <= LastCas(ch) && ch.ranks[i].lastWr <= LastCas(ch) {
      var k := BankAt(ch, i, c.bank);
    }
  }

  /** What reference i needs, and what that means for its bank. */
  lemma NeedsWhat(cfg: Config, ch: Chan, i: nat)
    requires Shape(cfg, ch) && Flags(cfg, ch) && i < |ch.q| && ch.q[i].valid
    ensures Needs(ch.q[i]).Some?
    ensures var m := ch.q[i]; var b := BankAt(ch, m.rank, m.bank); var c := CmdFor(cfg, ch, i);
      && (c.kind.Cas() <==> Hit(m)) && (c.kind.Pre? <==> m.prePending)
      && (Hit(m) ==> b.active && b.openRow == m.row)
      && (c.kind.Act? ==> !b.active) && (c.kind.Pre? ==> b.active && b.openRow != m.row)
  {
    assert FlagsRight(ch.q[i], BankAt(ch, ch.q[i].rank, ch.q[i].bank));
  }

  /** A precharge that can be sent comes at least tRAS after the row was activated, and not in the same cycle. */
  lemma PreComesLate(cfg: Config, ch: Chan, i: nat)
    requires Shape(cfg, ch) && Ready(cfg, ch, i) && CmdFor(cfg, ch, i).kind.Pre?
    requires BankAt(ch, ch.q[i].rank, ch.q[i].bank).lastAct < ch.clock
    ensures ch.clock >= BankAt(ch, ch.q[i].rank, ch.q[i].bank).lastAct + Max(1, cfg.t.tRAS)
  {
  }

  predicate SamePlace(m: MemRef, m': MemRef) {
    m'.rank == m.rank && m'.bank == m.bank && m'.row == m.row
  }

  /** The queue after a precharge or an activate for reference f. */
  lemma RowCommand(cfg: Config, ch: Chan, f: nat)
    requires Shape(cfg, ch) && Flags(cfg, ch) && Ready(cfg, ch, f) && !CmdFor(cfg, ch, f).kind.Cas()
    ensures var o := Issue(cfg, ch, f); var c := CmdFor(cfg, ch, f);
      && |o.ch.q| == |ch.q| && o.done.None? && o.ch.free == ch.free && o.ch.arrivals == ch.arrivals && o.ch.clock == ch.clock
      && o.ch.lastRd == ch.lastRd && o.ch.lastWr == ch.lastWr
      && LastCmd(o.ch) >= c.time && (LastCmd(ch) <= c.time ==> LastCmd(o.ch) == c.time)
      && (forall i | 0 <= i < |ch.q| :: SameRef(ch.q[i], o.ch.q[i]) && SamePlace(ch.q[i], o.ch.q[i]))
  {
  }

  /** A precharge leaves the other banks as they are and its own without a hit. */
  lemma PreEffect(cfg: Config, ch: Chan, f: nat, i: nat)
    requires Shape(cfg, ch) && Flags(cfg, ch) && Ready(cfg, ch, f) && CmdFor(cfg, ch, f).kind.Pre?
    requires i < |ch.q| && ch.q[i].valid
    ensures var o := Issue(cfg, ch, f); var c := CmdFor(cfg, ch, f); var m := ch.q[i];
      && |o.ch.q| == |ch.q| && m.rank == o.ch.q[i].rank && m.bank == o.ch.q[i].bank && o.ch.q[i].valid
      && (if m.rank == c.rank && m.bank == c.bank then !o.ch.q[i].prePending && o.ch.q[i].actPending
          else o.ch.q[i] == m && BankAt(o.ch, m.rank, m.bank) == BankAt(ch, m.rank, m.bank))
  {
    var o, c, m := Issue(cfg, ch, f), CmdFor(cfg, ch, f), ch.q[i];
    assert FlagsRight(m, BankAt(ch, m.rank, m.bank));
    assert BankAt(o.ch, c.rank, c.bank) == BankAfter(BankAt(ch, c.rank, c.bank), c);
    assert o.ch.q[i] == Flagged(m, BankAt(o.ch, m.rank, m.bank));
  }

  /** An activate opens the row of its reference. */
  lemma ActEffect(cfg: Config, ch: Chan, f: nat, i: nat)
    requires Shape(cfg, ch) && Flags(cfg, ch) && Ready(cfg, ch, f) && CmdFor(cfg, ch, f).kind.Act?
    requires i < |ch.q| && ch.q[i].valid
    ensures var o := Issue(cfg, ch, f); var c := CmdFor(cfg, ch, f); var m := ch.q[i];
      && |o.ch.q| == |ch.q| && m.rank == o.ch.q[i].rank && m.bank == o.ch.q[i].bank && o.ch.q[i].valid
      && (i == f ==> Hit(o.ch.q[i]) && BankAt(o.ch, m.rank, m.bank).lastAct == c.time)
      && (m.rank != c.rank || m.bank != c.bank ==>
            o.ch.q[i] == m && BankAt(o.ch, m.rank, m.bank) == BankAt(ch, m.rank, m.bank))
  {
    var o, c, m := Issue(cfg, ch, f), CmdFor(cfg, ch, f), ch.q[i];
    assert FlagsRight(m, BankAt(ch, m.rank, m.bank));
    assert BankAt(o.ch, c.rank, c.bank) == BankAfter(BankAt(ch, c.rank, c.bank), c);
    assert o.ch.q[i] == Flagged(m, BankAt(o.ch, m.rank, m.bank));
  }

  // ---------- one cycle ----------

  /** No read or write goes yet: guards of the last one may hold; or they do not and no row is open for anybody; or the
      row of reference i is. */
  datatype Phase = Quieting | Opening | Due(i: nat)

  /** In this phase, a read or write goes within so many cycles. */
  predicate At(cfg: Config, ch: Chan, phase: Phase, left: int)
    requires Shape(cfg, ch)
  {
    match phase
    case Quieting => left >= Max(1, LastCas(ch) + CasBound(cfg.t) - ch.clock) + RestBound(cfg)
    case Opening =>
      && Settled(ch) && ch.clock >= LastCas(ch) + CasBound(cfg.t) && (forall i | 0 <= i < |ch.q| :: !Hit(ch.q[i]))
      && left >= Closing(ch.q, |ch.q|) * RowBound(cfg.t) + Max(1, LastCmd(ch) + RowBound(cfg.t) - ch.clock) + OpenBound(cfg.t)
    case Due(i) =>
      && Settled(ch) && ch.clock >= LastCas(ch) + CasBound(cfg.t) && i < |ch.q| && Hit(ch.q[i])
      && left >= Max(1, BankAt(ch, ch.q[i].rank, ch.q[i].bank).lastAct + cfg.t.tRCD - ch.clock)
  }

  /** What every reachable channel satisfies. */
  predicate Fit(cfg: Config, ch: Chan) {
    SlotsKept(cfg, ch) && NoneLater(cfg, ch) && Flags(cfg, ch) && Stamped(ch)
  }

  lemma SomeQueued(cfg: Config, ch: Chan) returns (i: nat)
    requires SlotsKept(cfg, ch) && Settled(ch) && Outstanding(cfg, ch) > 0
    ensures i < cfg.queueSize && ch.q[i].valid
  {
    var free := set k | 0 <= k < |ch.free| :: ch.free[k];
    if forall x: nat | x < cfg.queueSize :: x in ch.free {
      forall x: nat | x in Below(cfg.queueSize) ensures x in free { assert x in ch.free; }
      SubsetOfSize(Below(cfg.queueSize), free);
      ElemsSize(ch.free);
    }
    i :| i < cfg.queueSize && i !in ch.free;
  }

  lemma SettledAdvance(cfg: Config, ch: Chan)
    requires Fit(cfg, ch) && Settled(ch)
    ensures var ch1 := Advance(cfg, ch);
      && Prepare(cfg, ch) == ch1 && Fit(cfg, ch1) && ch1.q == ch.q && ch1.free == ch.free && ch1.arrivals == ch.arrivals
      && ch1.clock == ch.clock + 1 && LastCmd(ch1) == LastCmd(ch) && LastCas(ch1) == LastCas(ch)
      && (forall r, b | 0 <= r < cfg.numRanks && 0 <= b < cfg.numBanks :: BankAt(ch1, r, b) == BankAt(ch, r, b))
  {
    var ch1 := Advance(cfg, ch);
    forall r | 0 <= r < cfg.numRanks ensures ch1.ranks[r].banks == ch.ranks[r].banks {}
    PrepareKeepsTimes(cfg, ch);
    NoneLaterUnderSameTimes(cfg, ch, ch1);
  }

  /** One decision while the row of reference i is open: a read or write goes, or the row stays open. */
  lemma DueDecides(cfg: Config, ch: Chan, i: nat)
    requires Fit(cfg, ch) && HoldsRows(cfg) && i < |ch.q| && Hit(ch.q[i]) && ch.q[i].ts < ch.clock
    requires ch.clock >= LastCas(ch) + CasBound(cfg.t)
    requires BankAt(ch, ch.q[i].rank, ch.q[i].bank).lastAct < ch.clock
    ensures var o := ScheduleFrFcfs(cfg, ch); var m := ch.q[i];
      || o.done.Some?
      || (&& ch.clock < BankAt(ch, m.rank, m.bank).lastAct + cfg.t.tRCD
          && |o.ch.q| == |ch.q| && o.ch.q[i] == m && BankAt(o.ch, m.rank, m.bank) == BankAt(ch, m.rank, m.bank)
          && o.ch.free == ch.free && o.ch.arrivals == ch.arrivals && o.ch.clock == ch.clock && LastCas(o.ch) == LastCas(ch))
  {
    var m, b := ch.q[i], BankAt(ch, ch.q[i].rank, ch.q[i].bank);
    FirstReadyServes(cfg, ch);
    NeedsWhat(cfg, ch, i);
    if ch.clock >= b.lastAct + cfg.t.tRCD {
      HitGoes(cfg, ch, CmdFor(cfg, ch, i));
      assert CasCandidate(cfg, ch, i);
    }
    if ScheduleFrFcfs(cfg, ch).cmd.Some? {
      var f := FrChoice(cfg, ch).value;
      NeedsWhat(cfg, ch, f);
      var c := CmdFor(cfg, ch, f);
      if c.kind.Pre? {
        RowCommand(cfg, ch, f);
        PreComesLate(cfg, ch, f);
        PreEffect(cfg, ch, f, i);
      } else if c.kind.Act? {
        RowCommand(cfg, ch, f);
        ActEffect(cfg, ch, f, i);
      }
    }
  }

  lemma DueCycle(cfg: Config, ch: Chan, i: nat, left: int)
    requires Fit(cfg, ch) && HoldsRows(cfg) && At(cfg, ch, Due(i), left)
    ensures var o := ScheduleFrFcfs(cfg, Prepare(cfg, ch)); o.done.Some? || At(cfg, o.ch, Due(i), left - 1)
  {
    SettledAdvance(cfg, ch);
    var m := ch.q[i];
    assert BankAt(ch, m.rank, m.bank).lastAct <= ch.clock;
    hide SlotsKept, NoneLater, Flags, ScheduleFrFcfs, Advance, Prepare;
    DueDecides(cfg, Advance(cfg, ch), i);
  }

  /** One decision while no row is open for anybody: nothing, a precharge, or an activate. */
  lemma OpeningDecides(cfg: Config, ch: Chan) returns (f: Option<nat>)
    requires Fit(cfg, ch) && (forall i | 0 <= i < |ch.q| :: !Hit(ch.q[i]))
    ensures var o := ScheduleFrFcfs(cfg, ch);
      && (f.None? ==> o == Outcome(ch, None, None) && forall i: nat | i < cfg.queueSize :: !Candidate(cfg, ch, i))
      && (f.Some? ==> Ready(cfg, ch, f.value) && !CmdFor(cfg, ch, f.value).kind.Cas() && o == Issue(cfg, ch, f.value))
  {
    FirstReadyServes(cfg, ch);
    f := if ScheduleFrFcfs(cfg, ch).cmd.None? then None else FrChoice(cfg, ch);
    if f.Some? { NeedsWhat(cfg, ch, f.value); }
    if f.None? { var i := Decide(cfg, FrFcfs, ch); }
  }

  /** After a precharge fewer references need one, and still no row is open for anybody. */
  lemma PreCloses(cfg: Config, ch: Chan, f: nat)
    requires Fit(cfg, ch) && Ready(cfg, ch, f) && CmdFor(cfg, ch, f).kind.Pre? && (forall i | 0 <= i < |ch.q| :: !Hit(ch.q[i]))
    ensures var o := Issue(cfg, ch, f);
      && |o.ch.q| == |ch.q| && (forall i | 0 <= i < |o.ch.q| :: !Hit(o.ch.q[i]))
      && Closing(o.ch.q, |ch.q|) <= Closing(ch.q, |ch.q|) - 1
  {
    var o := Issue(cfg, ch, f);
    RowCommand(cfg, ch, f);
    NeedsWhat(cfg, ch, f);
    forall i: nat | i < |ch.q|
      ensures !Hit(o.ch.q[i])
      ensures o.ch.q[i].valid && o.ch.q[i].prePending ==> ch.q[i].valid && ch.q[i].prePending && i != f
    {
      assert SameRef(ch.q[i], o.ch.q[i]);
      if ch.q[i].valid { PreEffect(cfg, ch, f, i); }
    }
    ClosingLess(ch.q, o.ch.q, f, |ch.q|);
  }

  /** A reference that needs a precharge or an activate gets it once the last command is over. */
  lemma RowGoes(cfg: Config, ch: Chan, i: nat)
    requires Fit(cfg, ch) && i < cfg.queueSize && ch.q[i].valid && ch.q[i].ts < ch.clock && !Hit(ch.q[i])
    requires ch.clock >= LastCmd(ch) + RowBound(cfg.t)
    ensures Candidate(cfg, ch, i)
  {
    NeedsWhat(cfg, ch, i);
    GuardOpens(cfg, ch, CmdFor(cfg, ch, i));
  }

  /** ch1 is ch a cycle later, before the decision. */
  predicate CycleOn(ch: Chan, ch1: Chan) {
    && ch1.q == ch.q && ch1.free == ch.free && ch1.arrivals == ch.arrivals && ch1.clock == ch.clock + 1
    && LastCmd(ch1) == LastCmd(ch) && LastCas(ch1) == LastCas(ch)
  }

  lemma AfterNothing(cfg: Config, ch: Chan, ch1: Chan, left: int)
    requires Shape(cfg, ch) && Shape(cfg, ch1) && At(cfg, ch, Opening, left) && CycleOn(ch, ch1)
    requires ch1.clock < LastCmd(ch1) + RowBound(cfg.t)
    ensures At(cfg, ch1, Opening, left - 1)
  {
  }

  lemma AfterPre(cfg: Config, ch: Chan, ch1: Chan, f: nat, left: int)
    requires Shape(cfg, ch) && Fit(cfg, ch1) && At(cfg, ch, Opening, left) && CycleOn(ch, ch1) && LastCmd(ch1) <= ch1.clock
    requires Ready(cfg, ch1, f) && CmdFor(cfg, ch1, f).kind.Pre?
    ensures At(cfg, Issue(cfg, ch1, f).ch, Opening, left - 1)
  {
    RowCommand(cfg, ch1, f);
    PreCloses(cfg, ch1, f);
    hide Issue, Fit, RowBound, OpenBound, LastCmd, LastCas, CasBound, Ready, Hit;
    var n, n', b := Closing(ch.q, |ch.q|), Closing(Issue(cfg, ch1, f).ch.q, |ch.q|), RowBound(cfg.t);
    RowBoundPositive(cfg.t);
    ProductDown(n', n, b, b, 1);
  }

  lemma RowBoundPositive(t: Timing)
    ensures RowBound(t) >= 1 && OpenBound(t) >= 1
  {
  }

  lemma AfterAct(cfg: Config, ch: Chan, ch1: Chan, f: nat, left: int)
    requires Shape(cfg, ch) && Fit(cfg, ch1) && At(cfg, ch, Opening, left) && CycleOn(ch, ch1)
    requires Ready(cfg, ch1, f) && CmdFor(cfg, ch1, f).kind.Act?
    ensures At(cfg, Issue(cfg, ch1, f).ch, Due(f), left - 1)
  {
    RowCommand(cfg, ch1, f);
    ActEffect(cfg, ch1, f, f);
    hide Issue, Fit, RowBound, LastCmd, LastCas, CasBound, Ready, Hit;
    RowBoundPositive(cfg.t);
    MulMonotone(0, Closing(ch.q, |ch.q|), RowBound(cfg.t));
  }

  lemma OpeningCycle(cfg: Config, ch: Chan, left: int) returns (next: Phase)
    requires Shape(cfg, ch) && Fit(cfg, ch) && At(cfg, ch, Opening, left) && Outstanding(cfg, ch) > 0
    ensures var o := ScheduleFrFcfs(cfg, Prepare(cfg, ch)); o.done.None? && At(cfg, o.ch, next, left - 1)
  {
    var ch1 := Advance(cfg, ch);
    SettledAdvance(cfg, ch);
    var i := SomeQueued(cfg, ch);
    LastCmdPast(cfg, ch);
    assert ch1.q[i].ts < ch1.clock;
    hide SlotsKept, NoneLater, Flags, Stamped, Advance, Prepare, ScheduleFrFcfs, LastCmd, LastCas, Closing, RowBound, OpenBound, Issue;
    var f := OpeningDecides(cfg, ch1);
    if f.None? {
      next := Opening;
      if ch1.clock >= LastCmd(ch1) + RowBound(cfg.t) { RowGoes(cfg, ch1, i); }
      AfterNothing(cfg, ch, ch1, left);
    } else if CmdFor(cfg, ch1, f.value).kind.Pre? {
      next := Opening;
      RowCommand(cfg, ch1, f.value);
      AfterPre(cfg, ch, ch1, f.value, left);
    } else {
      next := Due(f.value);
      RowCommand(cfg, ch1, f.value);
      AfterAct(cfg, ch, ch1, f.value, left);
    }
  }

  lemma LastCmdPast(cfg: Config, ch: Chan)
    requires Shape(cfg, ch) && NoneLater(cfg, ch)
    ensures LastCmd(ch) <= ch.clock
  {
  }

  lemma RestCovers(cfg: Config, n: nat)
    requires n <= cfg.queueSize
    ensures RestBound(cfg) >= n * RowBound(cfg.t) + RowBound(cfg.t) + OpenBound(cfg.t) && RestBound(cfg) >= OpenBound(cfg.t)
  {
    RowBoundPositive(cfg.t);
    MulMonotone(n, cfg.queueSize, RowBound(cfg.t));
    MulMonotone(0, n, RowBound(cfg.t));
  }

  /** How it stands after a cycle in which no read or write went. */
  lemma Classify(cfg: Config, ch: Chan, left: int) returns (phase: Phase)
    requires Fit(cfg, ch) && Settled(ch)
    requires left >= Max(0, LastCas(ch) + CasBound(cfg.t) - ch.clock) + RestBound(cfg)
    ensures At(cfg, ch, phase, left)
  {
    if ch.clock < LastCas(ch) + CasBound(cfg.t) {
      phase := Quieting;
    } else if i: nat :| i < |ch.q| && Hit(ch.q[i]) {
      phase := Due(i);
      assert BankAt(ch, ch.q[i].rank, ch.q[i].bank).lastAct <= ch.clock;
      RestCovers(cfg, 0);
    } else {
      phase := Opening;
      LastCmdPast(cfg, ch);
      ClosingAtMost(ch.q, |ch.q|);
      RowBoundPositive(cfg.t);
      RestCovers(cfg, Closing(ch.q, |ch.q|));
      hide RestBound, RowBound, OpenBound, Closing, Fit, LastCmd;
    }
  }

  // ---------- along a run ----------

  lemma FrStep(cfg: Config, r: Run)
    requires Shape(cfg, r.ch)
    ensures var o := ScheduleFrFcfs(cfg, Prepare(cfg, r.ch));
      Step(cfg, r, Cycle(FrFcfs)) == Run(o.ch, Log(r.trace, o.cmd), Log(r.done, o.done), r.arrived)
  {
  }

  /** A cycle takes from what is outstanding what it completes, and what it takes in leaves no room or nobody waiting. */
  lemma CycleTakes(cfg: Config, ch: Chan)
    requires SlotsKept(cfg, ch) && Stamped(ch)
    ensures var o := ScheduleFrFcfs(cfg, Prepare(cfg, ch));
      && Outstanding(cfg, o.ch) == Outstanding(cfg, ch) - (if o.done.Some? then 1 else 0)
      && (o.done.None? ==> Settled(o.ch) && o.ch.clock == ch.clock + 1 && LastCas(o.ch) == LastCas(ch))
  {
    var ch1 := Prepare(cfg, ch);
    PrepareAt(cfg, ch);
    PrepareKeepsTimes(cfg, ch);
    hide Prepare, SlotsKept;
    var i := Decide(cfg, FrFcfs, ch1);
  }

  lemma SoundFits(cfg: Config, r: Run)
    requires Sound(cfg, r)
    ensures Shape(cfg, r.ch) && Fit(cfg, r.ch)
  {
  }

  lemma PhaseCycle(cfg: Config, r: Run, phase: Phase, left: int) returns (next: Phase)
    requires Sound(cfg, r) && Shape(cfg, r.ch) && HoldsRows(cfg)
    requires At(cfg, r.ch, phase, left) && Outstanding(cfg, r.ch) > 0
    ensures var r' := Step(cfg, r, Cycle(FrFcfs));
      || Outstanding(cfg, r'.ch) == Outstanding(cfg, r.ch) - 1
      || (Outstanding(cfg, r'.ch) == Outstanding(cfg, r.ch) && At(cfg, r'.ch, next, left - 1))
  {
    var o := ScheduleFrFcfs(cfg, Prepare(cfg, r.ch));
    FrStep(cfg, r);
    SoundFits(cfg, r);
    SoundStep(cfg, r, Cycle(FrFcfs));
    SoundFits(cfg, Step(cfg, r, Cycle(FrFcfs)));
    CycleTakes(cfg, r.ch);
    hide Sound, Fit, Prepare, ScheduleFrFcfs, Outstanding, Step, RestBound;
    next := phase;
    match phase {
      case Quieting => if o.done.None? { next := Classify(cfg, o.ch, left - 1); }
      case Opening => next := OpeningCycle(cfg, r.ch, left);
      case Due(i) => DueCycle(cfg, r.ch, i, left);
    }
  }

  lemma AtPositive(cfg: Config, ch: Chan, phase: Phase, left: int)
    requires Shape(cfg, ch) && At(cfg, ch, phase, left)
    ensures left >= 1
  {
    RowBoundPositive(cfg.t);
    MulMonotone(0, cfg.queueSize, RowBound(cfg.t));
    MulMonotone(0, Closing(ch.q, |ch.q|), RowBound(cfg.t));
  }

  /** n cycles of the first-ready scheduler, with nothing arriving. */
  function Later(cfg: Config, r: Run, n: nat): (r': Run)
    requires Shape(cfg, r.ch)
    ensures Shape(cfg, r'.ch)
  {
    RunFrom(cfg, r, Repeat(n, Cycle(FrFcfs)))
  }

  lemma LaterNext(cfg: Config, r: Run, n: nat)
    requires Shape(cfg, r.ch)
    ensures Later(cfg, r, 0) == r && Later(cfg, r, n + 1) == Step(cfg, Later(cfg, r, n), Cycle(FrFcfs))
  {
    RepeatMore(cfg, r, n, Cycle(FrFcfs));
  }

  lemma LaterSplit(cfg: Config, r: Run, a: nat, b: nat)
    requires Shape(cfg, r.ch)
    ensures Later(cfg, r, a + b) == Later(cfg, Later(cfg, r, a), b)
  {
    var e := Cycle(FrFcfs);
    assert Repeat(a + b, e) == Repeat(a, e) + Repeat(b, e);
    RunFromConcat(cfg, r, Repeat(a, e), Repeat(b, e));
  }

  lemma LaterSound(cfg: Config, r: Run, n: nat)
    requires Sound(cfg, r) && Shape(cfg, r.ch)
    ensures Sound(cfg, Later(cfg, r, n))
  {
    SoundRun(cfg, r, Repeat(n, Cycle(FrFcfs)));
  }

  lemma OutstandingDown(cfg: Config, r: Run)
    requires Sound(cfg, r) && Shape(cfg, r.ch)
    ensures Outstanding(cfg, Step(cfg, r, Cycle(FrFcfs)).ch) <= Outstanding(cfg, r.ch)
  {
    CycleTakes(cfg, r.ch);
    FrStep(cfg, r);
  }

  lemma {:induction false} OutstandingFalls(cfg: Config, r: Run, n: nat)
    requires Sound(cfg, r) && Shape(cfg, r.ch)
    ensures Outstanding(cfg, Later(cfg, r, n).ch) <= Outstanding(cfg, r.ch)
  {
    hide Sound, Later, Step, Outstanding;
    if n > 0 {
      OutstandingFalls(cfg, r, n - 1);
      LaterNext(cfg, r, n - 1);
      LaterSound(cfg, r, n - 1);
      OutstandingDown(cfg, Later(cfg, r, n - 1));
    } else {
      LaterNext(cfg, r, 0);
    }
  }

  lemma {:induction false} PhaseAlong(cfg: Config, r: Run, start: Phase, left: int, n: nat) returns (phase: Phase)
    requires Sound(cfg, r) && Shape(cfg, r.ch) && HoldsRows(cfg)
    requires At(cfg, r.ch, start, left) && Outstanding(cfg, r.ch) > 0
    ensures var r' := Later(cfg, r, n);
      || Outstanding(cfg, r'.ch) < Outstanding(cfg, r.ch)
      || (Outstanding(cfg, r'.ch) == Outstanding(cfg, r.ch) && At(cfg, r'.ch, phase, left - n))
  {
    hide Sound, Later, Step, At, Outstanding, HoldsRows;
    phase := start;
    if n > 0 {
      phase := PhaseAlong(cfg, r, start, left, n - 1);
      LaterNext(cfg, r, n - 1);
      LaterSound(cfg, r, n - 1);
      var mid := Later(cfg, r, n - 1);
      if Outstanding(cfg, mid.ch) == Outstanding(cfg, r.ch) {
        phase := PhaseCycle(cfg, mid, phase, left - (n - 1));
      } else {
        OutstandingDown(cfg, mid);
      }
    } else {
      LaterNext(cfg, r, 0);
    }
  }

  lemma StartsQuieting(cfg: Config, ch: Chan)
    requires Shape(cfg, ch) && NoneLater(cfg, ch)
    ensures At(cfg, ch, Quieting, CasWithin(cfg))
  {
  }

  /** Some request completes within the bound, if any is outstanding. */
  lemma OneCompletes(cfg: Config, r: Run, n: nat)
    requires Sound(cfg, r) && Shape(cfg, r.ch) && HoldsRows(cfg) && Outstanding(cfg, r.ch) > 0 && n >= CasWithin(cfg)
    ensures Outstanding(cfg, Later(cfg, r, n).ch) < Outstanding(cfg, r.ch)
  {
    StartsQuieting(cfg, r.ch);
    hide Sound, Later, At, Outstanding, HoldsRows, CasWithin;
    var phase := PhaseAlong(cfg, r, Quieting, CasWithin(cfg), n);
    var r' := Later(cfg, r, n);
    if Outstanding(cfg, r'.ch) == Outstanding(cfg, r.ch) { AtPositive(cfg, r'.ch, phase, CasWithin(cfg) - n); }
  }

  lemma {:induction false} Empties(cfg: Config, r: Run, o: nat, m: nat)
    requires Sound(cfg, r) && Shape(cfg, r.ch) && HoldsRows(cfg) && Outstanding(cfg, r.ch) <= o && m >= o * CasWithin(cfg)
    ensures Outstanding(cfg, Later(cfg, r, m).ch) <= 0
    decreases o
  {
    hide Sound, Later, Outstanding, HoldsRows, CasWithin;
    if Outstanding(cfg, r.ch) <= 0 {
      OutstandingFalls(cfg, r, m);
    } else {
      var k := WithinNat(cfg);
      assert (o - 1) * k == o * k - k;
      MulMonotone(1, o, k);
      OneCompletes(cfg, r, k);
      LaterSplit(cfg, r, k, m - k);
      LaterSound(cfg, r, k);
      Empties(cfg, Later(cfg, r, k), o - 1, m - k);
    }
  }

  lemma WithinNat(cfg: Config) returns (k: nat)
    ensures k == CasWithin(cfg)
  {
    RowBoundPositive(cfg.t);
    MulMonotone(0, cfg.queueSize, RowBound(cfg.t));
    k := CasWithin(cfg);
  }

  /** With nothing outstanding, everything that arrived has completed, once. */
  lemma EmptyIsDone(cfg: Config, events: seq<Event>, x: Request)
    requires cfg.Valid() && Outstanding(cfg, Exec(cfg, events).ch) <= 0 && x in Exec(cfg, events).arrived
    ensures DoneOnce(Exec(cfg, events), x)
  {
    var r := Exec(cfg, events);
    InOnePlace(cfg, events, x);
    Conservation(cfg, events);
    FreeAtMost(cfg, r.ch);
    forall i | 0 <= i < |r.ch.q| ensures !r.ch.q[i].valid { FullFreeListMeansEmpty(cfg, r.ch, i); }
    NoneInFree(r.ch.q, x);
  }

  lemma {:induction false} NobodyArrives(cfg: Config, r: Run, n: nat)
    requires Shape(cfg, r.ch)
    ensures Later(cfg, r, n).arrived == r.arrived
  {
    if n > 0 {
      NobodyArrives(cfg, r, n - 1);
      LaterNext(cfg, r, n - 1);
    }
  }

  lemma LaterExec(cfg: Config, prefix: seq<Event>, m: nat)
    requires cfg.Valid()
    ensures Exec(cfg, prefix + Repeat(m, Cycle(FrFcfs))) == Later(cfg, Exec(cfg, prefix), m)
  {
    RunFromConcat(cfg, Run(Init(cfg), [], [], []), prefix, Repeat(m, Cycle(FrFcfs)));
  }

  /** m cycles of the first-ready scheduler later, all that had arrived has completed, once. */
  ghost predicate AllServed(cfg: Config, prefix: seq<Event>, m: nat)
    requires cfg.Valid()
  {
    forall x | x in Exec(cfg, prefix).arrived :: DoneOnce(Exec(cfg, prefix + Repeat(m, Cycle(FrFcfs))), x)
  }

  /** The cycles in which all that is queued or waits is served. */
  function ServedWithin(cfg: Config, ch: Chan): int {
    (|ch.arrivals| + cfg.queueSize) * CasWithin(cfg)
  }

  lemma SoundPrefix(cfg: Config, prefix: seq<Event>)
    requires cfg.Valid()
    ensures Sound(cfg, Exec(cfg, prefix))
  {
    SoundStart(cfg);
    SoundRun(cfg, Exec(cfg, []), prefix);
  }

  /** Where rows are held, the first-ready scheduler serves all that has arrived within the bound, once nothing more
      arrives. */
  lemma FirstReadyServesAll(cfg: Config, prefix: seq<Event>, m: nat)
    requires cfg.Valid() && HoldsRows(cfg) && m >= ServedWithin(cfg, Exec(cfg, prefix).ch)
    ensures AllServed(cfg, prefix, m)
  {
    hide HoldsRows, ServedWithin, Exec, Repeat, DoneOnce;
    forall x | x in Exec(cfg, prefix).arrived ensures DoneOnce(Exec(cfg, prefix + Repeat(m, Cycle(FrFcfs))), x) {
      FirstReadyServesEach(cfg, prefix, m, x);
    }
  }

  lemma FirstReadyServesEach(cfg: Config, prefix: seq<Event>, m: nat, x: Request)
    requires cfg.Valid() && HoldsRows(cfg) && m >= ServedWithin(cfg, Exec(cfg, prefix).ch) && x in Exec(cfg, prefix).arrived
    ensures DoneOnce(Exec(cfg, prefix + Repeat(m, Cycle(FrFcfs))), x)
  {
    hide Sound, HoldsRows, CasWithin, Exec, Later, Repeat, DoneOnce;
    SoundPrefix(cfg, prefix);
    var r := Exec(cfg, prefix);
    Empties(cfg, r, |r.ch.arrivals| + cfg.queueSize, m);
    LaterExec(cfg, prefix, m);
    NobodyArrives(cfg, r, m);
    EmptyIsDone(cfg, prefix + Repeat(m, Cycle(FrFcfs)), x);
  }
}
