/**
 Bounded service of the first-come scheduler: a measure that every DRAM cycle lowers
 bounds the time to completion of every queued and of every waiting request, whatever
 else arrives meanwhile.
 */
module DDR2Service {
  import opened Options
  import opened DDR2State
  import opened DDR2Trace
  import opened DDR2Rows
  import opened DDR2Queue
  import opened Products

  // ---------- the longest a guard can hold a command back ----------

  function PreBound(t: Timing): int {
    Max(1, Max(t.tWR + t.tWL + t.Burst(), Max(t.tRTP, t.tRAS)))
  }

  function ActBound(t: Timing): int {
    Max(1, Max(Max(t.tRFC, t.tRP), Max(t.tRRD, t.tRC)))
  }

  function CasBound(t: Timing): int {
    Max(1, Max(Max(Max(t.tRCD, t.tCCD), Max(t.tWTR + t.tWL + t.Burst(), t.tOST + t.Burst())),
               t.tRTRS + t.Burst() + Max(0, Max(t.tWL - t.tCL, t.tCL - t.tWL))))
  }

  function Bound(t: Timing, k: Kind): int {
    match k
    case Pre => PreBound(t)
    case Act => ActBound(t)
    case Rd => CasBound(t)
    case Wr => CasBound(t)
  }

  /** One precharge, one activate and one read or write, each after its longest wait. */
  function Span(t: Timing): (s: int)
    ensures s >= 3
  {
    PreBound(t) + ActBound(t) + CasBound(t)
  }

  function LastCmd(ch: Chan): int {
    Max(Max(ch.lastPre, ch.lastAct), Max(ch.lastRd, ch.lastWr))
  }

  lemma GuardOpens(cfg: Config, ch: Chan, c: Cmd)
    requires Shape(cfg, ch) && NoneLater(cfg, ch) && InRange(cfg, c) && c.time == ch.clock
    requires c.kind.Cas() ==> BankAt(ch, c.rank, c.bank).openRow == c.row
    requires ch.clock >= LastCmd(ch) + Bound(cfg.t, c.kind)
    ensures CanIssue(cfg.t, ch, c)
  {
    var b := BankAt(ch, c.rank, c.bank);
    forall i | 0 <= i < |ch.ranks|
      ensures ch.ranks[i].lastRd <= LastCmd(ch) && ch.ranks[i].lastWr <= LastCmd(ch)
    {
      var k := BankAt(ch, i, c.bank);
    }
    forall i | 0 <= i < |ch.ranks[c.rank].banks| ensures ch.ranks[c.rank].banks[i].lastAct <= LastCmd(ch) {
      var k := BankAt(ch, c.rank, i);
    }
    assert b.lastPre <= LastCmd(ch) && b.lastRd <= LastCmd(ch) && b.lastWr <= LastCmd(ch);
  }

  // ---------- the state facts that service rests on ----------

  predicate Stamped(ch: Chan) {
    forall i | 0 <= i < |ch.q| && ch.q[i].valid :: ch.q[i].ts <= ch.clock
  }

  predicate Sound(cfg: Config, r: Run) {
    Timed(cfg, r) && Rowed(cfg, r) && SlotsKept(cfg, r.ch) && Stamped(r.ch)
  }

  lemma {:induction false} EnqueueAllKeepsSlots(cfg: Config, ch: Chan)
    requires SlotsKept(cfg, ch)
    ensures SlotsKept(cfg, EnqueueAll(cfg, ch))
    ensures Stamped(ch) ==> Stamped(EnqueueAll(cfg, ch))
    decreases |ch.arrivals|
  {
    if ch.free != [] && ch.arrivals != [] {
      EnqueueKeepsSlots(cfg, ch);
      EnqueueAllKeepsSlots(cfg, Enqueue(cfg, ch));
    }
  }

  lemma SlotsStep(cfg: Config, r: Run, e: Event)
    requires SlotsKept(cfg, r.ch) && Stamped(r.ch)
    ensures SlotsKept(cfg, Step(cfg, r, e).ch) && Stamped(Step(cfg, r, e).ch)
  {
    if e.Cycle? {
      EnqueueAllKeepsSlots(cfg, Advance(cfg, r.ch));
      var ch1 := Prepare(cfg, r.ch);
      var i := Decide(cfg, e.p, ch1);
      if i.Some? { IssueKeepsSlots(cfg, ch1, i.value); }
    }
  }

  lemma SoundStep(cfg: Config, r: Run, e: Event)
    requires Sound(cfg, r)
    ensures Sound(cfg, Step(cfg, r, e))
  {
    TimedStep(cfg, r, e);
    RowedStep(cfg, r, e);
    SlotsStep(cfg, r, e);
    hide Timed, Rowed, SlotsKept, Stamped, Step;
    assert Sound(cfg, Step(cfg, r, e));
  }

  lemma {:induction false} SoundRun(cfg: Config, r: Run, events: seq<Event>)
    requires Sound(cfg, r)
    ensures Sound(cfg, RunFrom(cfg, r, events))
  {
    if events != [] {
      SoundRun(cfg, r, events[..|events| - 1]);
      SoundStep(cfg, RunFrom(cfg, r, events[..|events| - 1]), events[|events| - 1]);
    }
  }

  lemma SoundStart(cfg: Config)
    requires cfg.Valid()
    ensures Sound(cfg, Exec(cfg, []))
  {
    TimedRun(cfg, []);
    RowedRun(cfg, []);
    Conservation(cfg, []);
  }

  // ---------- who is ahead ----------

  predicate Ahead(q: seq<MemRef>, j: nat, i: nat)
    requires j < |q| && i < |q|
  {
    q[j].valid && Before(q, j, i)
  }

  function CountAhead(q: seq<MemRef>, i: nat, n: nat): nat
    requires i < |q| && n <= |q|
  {
    if n == 0 then 0 else CountAhead(q, i, n - 1) + (if Ahead(q, n - 1, i) then 1 else 0)
  }

  lemma {:induction false} CountAheadAtMost(q: seq<MemRef>, i: nat, n: nat)
    requires i < |q| && n <= |q|
    ensures CountAhead(q, i, n) <= if i < n then n - 1 else n
  {
    if n > 0 { CountAheadAtMost(q, i, n - 1); }
  }

  lemma {:induction false} CountAheadSame(q: seq<MemRef>, q': seq<MemRef>, i: nat, n: nat)
    requires i < |q| == |q'| && n <= |q|
    requires forall j | 0 <= j < |q| :: Ahead(q, j, i) == Ahead(q', j, i)
    ensures CountAhead(q, i, n) == CountAhead(q', i, n)
  {
    if n > 0 { CountAheadSame(q, q', i, n - 1); }
  }

  lemma {:induction false} CountAheadLess(q: seq<MemRef>, q': seq<MemRef>, i: nat, f: nat, n: nat)
    requires i < |q| == |q'| && n <= |q| && f < |q|
    requires Ahead(q, f, i) && !Ahead(q', f, i)
    requires forall j | 0 <= j < |q| && j != f :: Ahead(q, j, i) == Ahead(q', j, i)
    ensures CountAhead(q', i, n) == CountAhead(q, i, n) - (if f < n then 1 else 0)
  {
    if n > 0 { CountAheadLess(q, q', i, f, n - 1); }
  }

  // ---------- the oldest reference ----------

  /** The reference that the next cycle will serve: the oldest of all valid ones. */
  function First(ch: Chan): Option<nat> {
    Pick(ch.q, ValidOnes(ch), ch.clock + 1, |ch.q|)
  }

  lemma FirstIsOldest(ch: Chan)
    requires Stamped(ch)
    ensures First(ch).None? ==> forall j | 0 <= j < |ch.q| :: !ch.q[j].valid
    ensures First(ch).Some? ==>
      var f := First(ch).value; ch.q[f].valid && forall j | 0 <= j < |ch.q| && ch.q[j].valid && j != f :: Before(ch.q, f, j)
  {
    PickIsFirst(ch.q, ValidOnes(ch), ch.clock + 1, |ch.q|);
    assert forall j | 0 <= j < |ch.q| :: ValidOnes(ch)[j] == ch.q[j].valid;
  }

  /** The scan for the oldest reference ends at f exactly if f comes before all other valid ones. */
  lemma PickUnique(ch: Chan, bound: nat, f: nat)
    requires f < |ch.q| && ch.q[f].valid && ch.q[f].ts < bound
    requires forall j | 0 <= j < |ch.q| && ch.q[j].valid && j != f :: Before(ch.q, f, j)
    ensures Pick(ch.q, ValidOnes(ch), bound, |ch.q|) == Some(f)
  {
    PickIsFirst(ch.q, ValidOnes(ch), bound, |ch.q|);
    assert ValidOnes(ch)[f];
  }

  /** The oldest of the references that were in the queue before this cycle. */
  predicate FirstCome(ch: Chan, f: nat) {
    && f < |ch.q| && ch.q[f].valid && ch.q[f].ts < ch.clock
    && forall j | 0 <= j < |ch.q| && ch.q[j].valid && j != f :: Before(ch.q, f, j)
  }

  /** First come, first served: a command is sent exactly if the oldest reference is ready, and then its own; whatever
      else is ready waits. */
  lemma FirstComeServes(cfg: Config, ch: Chan)
    requires Shape(cfg, ch)
    ensures var o := ScheduleFcfs(cfg, ch);
      && (o.cmd.Some? <==> exists f: nat :: FirstCome(ch, f) && Ready(cfg, ch, f))
      && (o.cmd.None? ==> o == Outcome(ch, None, None))
      && (forall f: nat | FirstCome(ch, f) && Ready(cfg, ch, f) :: o == Issue(cfg, ch, f))
  {
    PickIsFirst(ch.q, ValidOnes(ch), ch.clock, |ch.q|);
    assert forall j | 0 <= j < |ch.q| :: ValidOnes(ch)[j] == ch.q[j].valid;
    forall f: nat | FirstCome(ch, f) ensures Oldest(ch) == Some(f) { PickUnique(ch, ch.clock, f); }
    if Oldest(ch).Some? { OldestComesFirst(ch); }
  }

  lemma OldestComesFirst(ch: Chan)
    requires Oldest(ch).Some?
    ensures FirstCome(ch, Oldest(ch).value)
  {
    PickIsFirst(ch.q, ValidOnes(ch), ch.clock, |ch.q|);
    assert forall j | 0 <= j < |ch.q| :: ValidOnes(ch)[j] == ch.q[j].valid;
  }

  /** What a whole EnqueueAll does to the queue. */
  lemma {:induction false} EnqueueAllAt(cfg: Config, ch: Chan)
    requires SlotsKept(cfg, ch)
    ensures var ch' := EnqueueAll(cfg, ch);
      var k := if |ch.free| < |ch.arrivals| then |ch.free| else |ch.arrivals|;
      && ch'.free == ch.free[k..] && ch'.arrivals == ch.arrivals[k..] && ch'.occupancy == ch.occupancy + k
      && (forall i | 0 <= i < |ch.q| && ch.q[i].valid :: ch'.q[i] == ch.q[i])
      && (forall i | 0 <= i < |ch.q| && !ch.q[i].valid && ch'.q[i].valid :: ch'.q[i].ts == ch.clock)
      && (forall p | 0 <= p < k :: var m := ch'.q[ch.free[p]];
                                   m.valid && m.request == Some(ch.arrivals[p]) && m.ts == ch.clock)
    decreases |ch.arrivals|
  {
    if ch.free != [] && ch.arrivals != [] {
      var mid := Enqueue(cfg, ch);
      EnqueueKeepsSlots(cfg, ch);
      EnqueueAllAt(cfg, mid);
      var ch' := EnqueueAll(cfg, ch);
      var k := if |ch.free| < |ch.arrivals| then |ch.free| else |ch.arrivals|;
      forall p | 0 <= p < k
        ensures var m := ch'.q[ch.free[p]]; m.valid && m.request == Some(ch.arrivals[p]) && m.ts == ch.clock
      {
        if p == 0 {
          assert mid.q[ch.free[0]].valid;
        } else {
          assert ch.free[p] == mid.free[p - 1] && ch.arrivals[p] == mid.arrivals[p - 1];
        }
      }
    }
  }

  /** How a channel looks when a cycle begins to schedule, from how the last cycle left it. */
  predicate Prepared(ch: Chan, ch1: Chan) {
    && |ch1.q| == |ch.q|
    && Stamped(ch) && Stamped(ch1) && ch1.clock == ch.clock + 1 && LastCmd(ch1) == LastCmd(ch)
    && var k := if |ch.free| < |ch.arrivals| then |ch.free| else |ch.arrivals|;
    && ch1.free == ch.free[k..] && ch1.arrivals == ch.arrivals[k..]
    && (forall i | 0 <= i < |ch.q| && ch.q[i].valid :: ch1.q[i] == ch.q[i])
    && (forall i | 0 <= i < |ch.q| && !ch.q[i].valid && ch1.q[i].valid :: ch1.q[i].ts == ch1.clock)
  }

  lemma PrepareAt(cfg: Config, ch: Chan)
    requires SlotsKept(cfg, ch) && Stamped(ch)
    ensures var ch' := Prepare(cfg, ch);
      var k := if |ch.free| < |ch.arrivals| then |ch.free| else |ch.arrivals|;
      && SlotsKept(cfg, ch') && Prepared(ch, ch')
      && (forall p | 0 <= p < k :: var m := ch'.q[ch.free[p]];
                                   m.valid && m.request == Some(ch.arrivals[p]) && m.ts == ch'.clock)
  {
    EnqueueAllKeepsSlots(cfg, Advance(cfg, ch));
    EnqueueAllKeeps(cfg, Advance(cfg, ch));
    EnqueueAllAt(cfg, Advance(cfg, ch));
  }

  lemma PreparedKeepsFirst(ch: Chan, ch1: Chan)
    requires Prepared(ch, ch1)
    ensures Oldest(ch1) == First(ch)
    ensures First(ch).Some? ==> First(ch1) == First(ch)
  {
    FirstIsOldest(ch);
    if First(ch).Some? {
      var f := First(ch).value;
      forall j | 0 <= j < |ch1.q| && ch1.q[j].valid && j != f ensures Before(ch1.q, f, j) {
        if ch.q[j].valid { assert Before(ch.q, f, j); }
      }
      PickUnique(ch1, ch1.clock, f);
      PickUnique(ch1, ch1.clock + 1, f);
    } else {
      PickIsFirst(ch1.q, ValidOnes(ch1), ch1.clock, |ch1.q|);
      forall i | 0 <= i < |ch1.q| && ValidOnes(ch1)[i] ensures ch1.q[i].ts >= ch1.clock { assert !ch.q[i].valid; }
    }
  }

  // ---------- the measure ----------

  /** Cycles until the last command has left enough distance, at least the next one. */
  function Wait(ch: Chan, bound: int): int {
    Max(LastCmd(ch) + bound - ch.clock, 1)
  }

  /** Cycles a reference needs once it is the one served. */
  function Left(t: Timing, ch: Chan, m: MemRef): int {
    if m.prePending then Wait(ch, PreBound(t)) + ActBound(t) + CasBound(t)
    else if m.actPending then Wait(ch, ActBound(t)) + CasBound(t)
    else Wait(ch, CasBound(t))
  }

  lemma LeftInSpan(cfg: Config, ch: Chan, m: MemRef)
    requires Shape(cfg, ch) && NoneLater(cfg, ch)
    ensures 1 <= Left(cfg.t, ch, m) <= Span(cfg.t)
  {
  }

  /** What one cycle does to the reference f that it serves: it waits for a guard, */
  predicate Waits(cfg: Config, ch: Chan, ch': Chan, f: nat) {
    && f < |ch.q| && ch' == ch && Needs(ch.q[f]).Some?
    && LastCmd(ch) + Bound(cfg.t, Needs(ch.q[f]).value) > ch.clock
  }

  /** opens or closes a row for it, */
  predicate Opens(cfg: Config, ch: Chan, ch': Chan, f: nat) {
    && f < |ch.q| == |ch'.q| && ch'.clock == ch.clock && ch'.free == ch.free && ch'.arrivals == ch.arrivals
    && Left(cfg.t, ch', ch'.q[f]) < Left(cfg.t, ch, ch.q[f])
    && forall j | 0 <= j < |ch.q| :: SameRef(ch.q[j], ch'.q[j])
  }

  /** or completes it. */
  predicate Completes(ch: Chan, ch': Chan, f: nat) {
    && f < |ch.q| && ch'.q == ch.q[f := Complete(ch.q[f])]
    && ch'.clock == ch.clock && ch'.free == ch.free + [f] && ch'.arrivals == ch.arrivals
  }

  predicate SameRef(m: MemRef, m': MemRef) {
    m'.valid == m.valid && m'.request == m.request && m'.ts == m.ts
  }

  lemma ServeFirst(cfg: Config, ch: Chan)
    requires Shape(cfg, ch) && NoneLater(cfg, ch) && Flags(cfg, ch) && Oldest(ch).Some?
    ensures var f := Oldest(ch).value; var o := ScheduleFcfs(cfg, ch);
      || (Waits(cfg, ch, o.ch, f) && o.done.None?)
      || (Opens(cfg, ch, o.ch, f) && o.done.None?)
      || (Completes(ch, o.ch, f) && o.done == Some(ch.q[f]))
  {
    var f := Oldest(ch).value;
    var m := ch.q[f];
    assert ValidOnes(ch)[f];
    assert m.valid && FlagsRight(m, BankAt(ch, m.rank, m.bank));
    var c := CmdFor(cfg, ch, f);
    if !Ready(cfg, ch, f) {
      if ch.clock >= LastCmd(ch) + Bound(cfg.t, c.kind) { GuardOpens(cfg, ch, c); }
    } else if !c.kind.Cas() {
      var o := Issue(cfg, ch, f);
      assert BankAt(o.ch, m.rank, m.bank) == BankAfter(BankAt(ch, m.rank, m.bank), c);
      assert o.ch.q[f] == Flagged(m, BankAt(o.ch, m.rank, m.bank));
      assert LastCmd(o.ch) == ch.clock;
    }
  }

  /** A bound on the cycles until the reference in slot i completes. */
  function Measure(cfg: Config, ch: Chan, i: nat): int
    requires i < |ch.q|
  {
    CountAhead(ch.q, i, |ch.q|) * Span(cfg.t)
    + (if First(ch).Some? then Left(cfg.t, ch, ch.q[First(ch).value]) else 0)
  }

  lemma PreparedKeepsAhead(ch: Chan, ch1: Chan, i: nat)
    requires Prepared(ch, ch1) && i < |ch.q| && ch.q[i].valid
    ensures CountAhead(ch1.q, i, |ch.q|) == CountAhead(ch.q, i, |ch.q|)
  {
    CountAheadSame(ch.q, ch1.q, i, |ch.q|);
  }

  lemma SameRefsKeepFirst(ch1: Chan, ch2: Chan, f: nat, i: nat)
    requires Stamped(ch1) && First(ch1) == Some(f) && i < |ch1.q| == |ch2.q| && ch2.clock == ch1.clock
    requires forall j | 0 <= j < |ch1.q| :: SameRef(ch1.q[j], ch2.q[j])
    ensures First(ch2) == Some(f) && CountAhead(ch2.q, i, |ch1.q|) == CountAhead(ch1.q, i, |ch1.q|)
  {
    FirstIsOldest(ch1);
    forall j | 0 <= j < |ch2.q| && ch2.q[j].valid && j != f ensures Before(ch2.q, f, j) { assert Before(ch1.q, f, j); }
    PickUnique(ch2, ch2.clock + 1, f);
    CountAheadSame(ch1.q, ch2.q, i, |ch1.q|);
  }

  lemma WaitingCosts(cfg: Config, ch: Chan, ch1: Chan, f: nat, i: nat)
    requires Prepared(ch, ch1) && First(ch) == Some(f) && Waits(cfg, ch1, ch1, f) && i < |ch.q| && ch.q[i].valid
    ensures Measure(cfg, ch1, i) < Measure(cfg, ch, i)
  {
    PreparedKeepsFirst(ch, ch1);
    FirstIsOldest(ch);
    PreparedKeepsAhead(ch, ch1, i);
  }

  lemma OpeningCosts(cfg: Config, ch: Chan, ch1: Chan, ch2: Chan, f: nat, i: nat)
    requires Prepared(ch, ch1) && First(ch) == Some(f) && Opens(cfg, ch1, ch2, f) && i < |ch.q| && ch.q[i].valid
    ensures Measure(cfg, ch2, i) < Measure(cfg, ch, i)
  {
    PreparedKeepsFirst(ch, ch1);
    FirstIsOldest(ch);
    PreparedKeepsAhead(ch, ch1, i);
    SameRefsKeepFirst(ch1, ch2, f, i);
    assert Left(cfg.t, ch1, ch1.q[f]) <= Left(cfg.t, ch, ch.q[f]);
  }

  lemma CompletionLessAhead(ch: Chan, ch1: Chan, ch2: Chan, f: nat, i: nat)
    requires Prepared(ch, ch1) && First(ch) == Some(f) && Completes(ch1, ch2, f)
    requires i < |ch.q| && ch.q[i].valid && i != f
    ensures CountAhead(ch2.q, i, |ch.q|) == CountAhead(ch.q, i, |ch.q|) - 1
  {
    FirstIsOldest(ch);
    assert Before(ch.q, f, i);
    PreparedKeepsAhead(ch, ch1, i);
    CountAheadLess(ch1.q, ch2.q, i, f, |ch.q|);
  }

  /** A reference fewer ahead outweighs whatever the next one needs. */
  lemma CompletionPays(cfg: Config, ch: Chan, ch1: Chan, ch2: Chan, f: nat, i: nat)
    requires Prepared(ch, ch1) && First(ch) == Some(f) && Completes(ch1, ch2, f)
    requires i < |ch.q| && ch.q[i].valid && i != f
    requires Shape(cfg, ch) && NoneLater(cfg, ch) && Shape(cfg, ch2) && NoneLater(cfg, ch2)
    ensures Measure(cfg, ch2, i) < Measure(cfg, ch, i)
  {
    CompletionLessAhead(ch, ch1, ch2, f, i);
    LeftInSpan(cfg, ch, ch.q[f]);
    var left2 := if First(ch2).Some? then Left(cfg.t, ch2, ch2.q[First(ch2).value]) else 0;
    if First(ch2).Some? { LeftInSpan(cfg, ch2, ch2.q[First(ch2).value]); }
    hide Span, Left, CountAhead;
    ProductDown(CountAhead(ch2.q, i, |ch.q|), CountAhead(ch.q, i, |ch.q|), Span(cfg.t), left2, Left(cfg.t, ch, ch.q[f]));
  }

  /** Slot i's reference completes in this cycle, or keeps its slot and its measure shrinks. */
  lemma CycleServes(cfg: Config, r: Run, i: nat)
    requires Sound(cfg, r) && i < |r.ch.q| && r.ch.q[i].valid
    ensures var r' := Step(cfg, r, Cycle(Fcfs)); var m := r.ch.q[i];
      || (r'.done == r.done + [m])
      || (SameRef(m, r'.ch.q[i]) && Measure(cfg, r'.ch, i) < Measure(cfg, r.ch, i))
  {
    var ch, ch1 := r.ch, Prepare(cfg, r.ch);
    SoundPrepare(cfg, r);
    SoundStep(cfg, r, Cycle(Fcfs));
    PrepareAt(cfg, ch);
    PreparedKeepsFirst(ch, ch1);
    FirstIsOldest(ch);
    var f := First(ch).value;
    ServeFirst(cfg, ch1);
    var ch2 := ScheduleFcfs(cfg, ch1).ch;
    assert Shape(cfg, ch2) && NoneLater(cfg, ch2);
    if Waits(cfg, ch1, ch2, f) {
      WaitingCosts(cfg, ch, ch1, f, i);
    } else if Opens(cfg, ch1, ch2, f) {
      OpeningCosts(cfg, ch, ch1, ch2, f, i);
    } else if f != i {
      CompletionPays(cfg, ch, ch1, ch2, f, i);
    }
  }

  lemma SoundPrepare(cfg: Config, r: Run)
    requires Sound(cfg, r)
    ensures Sound(cfg, r.(ch := Prepare(cfg, r.ch)))
  {
    PrepareKeepsTimes(cfg, r.ch);
    TimedUnderSameTimes(cfg, r, Prepare(cfg, r.ch));
    PrepareKeepsRows(cfg, r);
    PrepareAt(cfg, r.ch);
  }

  lemma MeasureAtMost(cfg: Config, ch: Chan, i: nat)
    requires Shape(cfg, ch) && NoneLater(cfg, ch) && i < |ch.q|
    ensures Measure(cfg, ch, i) <= cfg.queueSize * Span(cfg.t)
  {
    CountAheadAtMost(ch.q, i, |ch.q|);
    if First(ch).Some? { LeftInSpan(cfg, ch, ch.q[First(ch).value]); }
    var n, s := CountAhead(ch.q, i, |ch.q|), Span(cfg.t);
    assert n * s <= (cfg.queueSize - 1) * s by { MulMonotone(n, cfg.queueSize - 1, s); }
    assert (cfg.queueSize - 1) * s + s == cfg.queueSize * s;
  }

  lemma MeasurePositive(cfg: Config, r: Run, i: nat)
    requires Sound(cfg, r) && i < |r.ch.q| && r.ch.q[i].valid
    ensures Measure(cfg, r.ch, i) >= 1
  {
    FirstIsOldest(r.ch);
    LeftInSpan(cfg, r.ch, r.ch.q[First(r.ch).value]);
    MulMonotone(0, CountAhead(r.ch.q, i, |r.ch.q|), Span(cfg.t));
  }

  // ---------- main results ----------

  function Cycles(events: seq<Event>): nat {
    if events == [] then 0
    else Cycles(events[..|events| - 1]) + (if events[|events| - 1].Cycle? then 1 else 0)
  }

  predicate AllFcfs(events: seq<Event>) {
    forall k | 0 <= k < |events| && events[k].Cycle? :: events[k].p.Fcfs?
  }

  /** The request of m has completed since r. */
  predicate CompletedSince(r: Run, r': Run, m: MemRef) {
    exists d :: |r.done| <= d < |r'.done| && r'.done[d].request == m.request && r'.done[d].ts == m.ts
  }

  predicate Extends(r: Run, r': Run) {
    |r.done| <= |r'.done| && r'.done[..|r.done|] == r.done
  }

  lemma {:induction false} DoneOnlyGrows(cfg: Config, r: Run, events: seq<Event>)
    requires Shape(cfg, r.ch)
    ensures Extends(r, RunFrom(cfg, r, events))
  {
    if events != [] { DoneOnlyGrows(cfg, r, events[..|events| - 1]); }
  }

  lemma CompletedStays(r: Run, mid: Run, r': Run, m: MemRef)
    requires CompletedSince(r, mid, m) && Extends(mid, r')
    ensures CompletedSince(r, r', m)
  {
    var d :| |r.done| <= d < |mid.done| && mid.done[d].request == m.request && mid.done[d].ts == m.ts;
    assert r'.done[d] == mid.done[d];
  }

  /** Reference m, in slot i when the run was at r, is done by mid or has at most `left` cycles to go. */
  predicate OnTime(cfg: Config, r: Run, mid: Run, m: MemRef, i: nat, left: int) {
    || CompletedSince(r, mid, m)
    || (i < |mid.ch.q| && SameRef(m, mid.ch.q[i]) && Measure(cfg, mid.ch, i) <= left)
  }

  lemma ArrivalKeepsMeasure(cfg: Config, ch: Chan, req: Request, i: nat)
    requires i < |ch.q|
    ensures Measure(cfg, Arrive(ch, req), i) == Measure(cfg, ch, i)
  {
    assert ValidOnes(Arrive(ch, req)) == ValidOnes(ch);
  }

  /** The history after one more event, without what the event does to the channel. */
  lemma StepExtends(cfg: Config, mid: Run, e: Event)
    requires Shape(cfg, mid.ch)
    ensures Extends(mid, Step(cfg, mid, e))
  {
  }

  lemma OnTimeCycle(cfg: Config, r: Run, mid: Run, r': Run, m: MemRef, i: nat, left: int)
    requires Extends(r, mid) && OnTime(cfg, r, mid, m, i, left) && Extends(mid, r')
    requires i < |mid.ch.q| == |r'.ch.q|
    requires SameRef(m, mid.ch.q[i]) ==>
      || r'.done == mid.done + [mid.ch.q[i]]
      || (SameRef(mid.ch.q[i], r'.ch.q[i]) && Measure(cfg, r'.ch, i) < Measure(cfg, mid.ch, i))
    ensures OnTime(cfg, r, r', m, i, left - 1)
  {
    if CompletedSince(r, mid, m) {
      CompletedStays(r, mid, r', m);
    } else if r'.done == mid.done + [mid.ch.q[i]] {
      assert r'.done[|mid.done|] == mid.ch.q[i];
    }
  }

  lemma OnTimeStep(cfg: Config, r: Run, mid: Run, e: Event, m: MemRef, i: nat, left: int)
    requires Sound(cfg, mid) && Extends(r, mid) && m.valid && i < |mid.ch.q| && OnTime(cfg, r, mid, m, i, left)
    requires e.Cycle? ==> e.p.Fcfs?
    ensures OnTime(cfg, r, Step(cfg, mid, e), m, i, if e.Cycle? then left - 1 else left)
  {
    StepExtends(cfg, mid, e);
    var r' := Step(cfg, mid, e);
    if e.Cycle? {
      if mid.ch.q[i].valid { CycleServes(cfg, mid, i); }
      OnTimeCycle(cfg, r, mid, r', m, i, left);
    } else {
      ArrivalKeepsMeasure(cfg, mid.ch, Arriving(mid, e), i);
      if CompletedSince(r, mid, m) { CompletedStays(r, mid, r', m); }
    }
  }

  lemma {:induction false} ServiceAlong(cfg: Config, r: Run, events: seq<Event>, i: nat)
    requires Sound(cfg, r) && i < |r.ch.q| && r.ch.q[i].valid && AllFcfs(events)
    ensures OnTime(cfg, r, RunFrom(cfg, r, events), r.ch.q[i], i, Measure(cfg, r.ch, i) - Cycles(events))
  {
    if events != [] {
      var before, e := events[..|events| - 1], events[|events| - 1];
      ServiceAlong(cfg, r, before, i);
      DoneOnlyGrows(cfg, r, before);
      SoundRun(cfg, r, before);
      OnTimeStep(cfg, r, RunFrom(cfg, r, before), e, r.ch.q[i], i, Measure(cfg, r.ch, i) - Cycles(before));
    }
  }

  /** A completed request is not completed again and is nowhere else. */
  lemma CompletedIsOnce(cfg: Config, prefix: seq<Event>, events: seq<Event>, m: MemRef)
    requires cfg.Valid() && m.request.Some? && CompletedSince(Exec(cfg, prefix), Exec(cfg, prefix + events), m)
    ensures DoneOnce(Exec(cfg, prefix + events), m.request.value)
  {
    var r, r' := Exec(cfg, prefix), Exec(cfg, prefix + events);
    var d :| |r.done| <= d < |r'.done| && r'.done[d].request == m.request && r'.done[d].ts == m.ts;
    DoneMeansOnce(cfg, prefix + events, d, m.request.value);
  }

  /** Every queued request completes, once, within queueSize times the span of three longest waits: after any prefix
      of events, and whatever arrives while those cycles run. */
  lemma QueuedIsServed(cfg: Config, prefix: seq<Event>, events: seq<Event>, i: nat)
    requires cfg.Valid() && i < cfg.queueSize && Exec(cfg, prefix).ch.q[i].valid
    requires AllFcfs(events) && Cycles(events) >= cfg.queueSize * Span(cfg.t)
    ensures var r, r' := Exec(cfg, prefix), Exec(cfg, prefix + events);
      CompletedSince(r, r', r.ch.q[i]) && DoneOnce(r', r.ch.q[i].request.value)
  {
    var r := Exec(cfg, prefix);
    SoundStart(cfg);
    SoundRun(cfg, Exec(cfg, []), prefix);
    ServiceAlong(cfg, r, events, i);
    MeasureAtMost(cfg, r.ch, i);
    SoundRun(cfg, r, events);
    RunFromConcat(cfg, Exec(cfg, []), prefix, events);
    if !CompletedSince(r, RunFrom(cfg, r, events), r.ch.q[i]) { MeasurePositive(cfg, RunFrom(cfg, r, events), i); }
    CompletedIsOnce(cfg, prefix, events, r.ch.q[i]);
  }

  /** The oldest request is served first: it completes, once, within one span. */
  lemma OldestIsServed(cfg: Config, prefix: seq<Event>, events: seq<Event>, i: nat)
    requires cfg.Valid() && First(Exec(cfg, prefix).ch) == Some(i)
    requires AllFcfs(events) && Cycles(events) >= Span(cfg.t)
    ensures var r, r' := Exec(cfg, prefix), Exec(cfg, prefix + events);
      r.ch.q[i].valid && CompletedSince(r, r', r.ch.q[i]) && DoneOnce(r', r.ch.q[i].request.value)
  {
    var r := Exec(cfg, prefix);
    SoundStart(cfg);
    SoundRun(cfg, Exec(cfg, []), prefix);
    FirstIsOldest(r.ch);
    NoneAheadOfFirst(r.ch, i, |r.ch.q|);
    LeftInSpan(cfg, r.ch, r.ch.q[i]);
    ServiceAlong(cfg, r, events, i);
    SoundRun(cfg, r, events);
    RunFromConcat(cfg, Exec(cfg, []), prefix, events);
    if !CompletedSince(r, RunFrom(cfg, r, events), r.ch.q[i]) { MeasurePositive(cfg, RunFrom(cfg, r, events), i); }
    CompletedIsOnce(cfg, prefix, events, r.ch.q[i]);
  }

  lemma {:induction false} NoneAheadOfFirst(ch: Chan, i: nat, n: nat)
    requires Stamped(ch) && First(ch) == Some(i) && n <= |ch.q|
    ensures CountAhead(ch.q, i, n) == 0
  {
    if n > 0 {
      NoneAheadOfFirst(ch, i, n - 1);
      FirstIsOldest(ch);
      if n - 1 != i && ch.q[n - 1].valid { assert Before(ch.q, i, n - 1); }
    }
  }
}
