/**
 Whole-run safety of a DDR2 channel. A run is any sequence of arrivals and DRAM
 cycles, each cycle under either scheduler. The controller's guards look only at
 the last command of each kind; the results here speak of all pairs of commands.
 */
module DDR2Trace {
  import opened Options
  import opened DDR2State

  datatype Event = Arrival(pAddr: nat, op: MemOp) | Cycle(p: Policy)

  /** A channel with the history of its run: commands sent, references completed, requests arrived. */
  datatype Run = Run(ch: Chan, trace: seq<Cmd>, done: seq<MemRef>, arrived: seq<Request>)

  function Log<T>(s: seq<T>, x: Option<T>): seq<T> {
    if x.Some? then s + [x.value] else s
  }

  /** The request that arrives with an event, numbered in order of arrival. */
  function Arriving(r: Run, e: Event): Request
    requires e.Arrival?
  {
    Request(|r.arrived|, e.pAddr, e.op)
  }

  function Step(cfg: Config, r: Run, e: Event): (r': Run)
    requires Shape(cfg, r.ch)
    ensures Shape(cfg, r'.ch)
  {
    match e
    case Arrival(_, _) => Run(Arrive(r.ch, Arriving(r, e)), r.trace, r.done, r.arrived + [Arriving(r, e)])
    case Cycle(p) =>
      var o := Tick(cfg, p, r.ch);
      Run(o.ch, Log(r.trace, o.cmd), Log(r.done, o.done), r.arrived)
  }

  function RunFrom(cfg: Config, r: Run, events: seq<Event>): (r': Run)
    requires Shape(cfg, r.ch)
    ensures Shape(cfg, r'.ch)
  {
    if events == [] then r else Step(cfg, RunFrom(cfg, r, events[..|events| - 1]), events[|events| - 1])
  }

  function Exec(cfg: Config, events: seq<Event>): (r: Run)
    requires cfg.Valid()
    ensures Shape(cfg, r.ch)
  {
    RunFrom(cfg, Run(Init(cfg), [], [], []), events)
  }

  lemma {:induction false} RunFromConcat(cfg: Config, r: Run, a: seq<Event>, b: seq<Event>)
    requires Shape(cfg, r.ch)
    ensures RunFrom(cfg, r, a + b) == RunFrom(cfg, RunFrom(cfg, r, a), b)
  {
    if b == [] {
      assert a + b == a;
    } else {
      RunFromConcat(cfg, r, a, b[..|b| - 1]);
      assert (a + b)[..|a + b| - 1] == a + b[..|b| - 1];
    }
  }

  lemma OneEvent(cfg: Config, r: Run, e: Event)
    requires Shape(cfg, r.ch)
    ensures RunFrom(cfg, r, [e]) == Step(cfg, r, e)
  {
    assert [e][..0] == [];
    assert RunFrom(cfg, r, []) == r;
  }

  function Repeat(n: nat, e: Event): (events: seq<Event>)
    ensures |events| == n && forall k | 0 <= k < n :: events[k] == e
  {
    seq(n, i => e)
  }

  lemma RepeatMore(cfg: Config, r: Run, n: nat, e: Event)
    requires Shape(cfg, r.ch)
    ensures RunFrom(cfg, r, Repeat(n + 1, e)) == Step(cfg, RunFrom(cfg, r, Repeat(n, e)), e)
  {
    assert Repeat(n + 1, e)[..n] == Repeat(n, e);
  }

  lemma FcfsStep(cfg: Config, r: Run)
    requires Shape(cfg, r.ch)
    ensures var o := ScheduleFcfs(cfg, Prepare(cfg, r.ch));
      Step(cfg, r, Cycle(Fcfs)) == Run(o.ch, Log(r.trace, o.cmd), Log(r.done, o.done), r.arrived)
  {
  }

  // ---------- what a cycle can do ----------

  /** Either nothing is sent and nothing changes, or one ready reference gets the command it needs. */
  lemma Decide(cfg: Config, p: Policy, ch: Chan) returns (i: Option<nat>)
    requires Shape(cfg, ch)
    ensures i.None? ==> Schedule(cfg, p, ch) == Outcome(ch, None, None)
    ensures i.Some? ==> Ready(cfg, ch, i.value) && Schedule(cfg, p, ch) == Issue(cfg, ch, i.value)
    ensures i.Some? ==> ch.q[i.value].ts < ch.clock
  {
    if p.Fcfs? {
      i := Oldest(ch);
      if i.Some? && !Ready(cfg, ch, i.value) { i := None; }
    } else {
      i := if |ch.free| == cfg.queueSize then None else FrChoice(cfg, ch);
    }
  }

  /** Taking requests into the queue does not touch banks, clock or command times. */
  lemma {:induction false} EnqueueAllKeeps(cfg: Config, ch: Chan)
    requires Shape(cfg, ch)
    ensures var ch' := EnqueueAll(cfg, ch);
      && ch'.ranks == ch.ranks && ch'.clock == ch.clock
      && ch'.lastPre == ch.lastPre && ch'.lastAct == ch.lastAct && ch'.lastRd == ch.lastRd && ch'.lastWr == ch.lastWr
    decreases |ch.arrivals|
  {
    if ch.free != [] && ch.arrivals != [] { EnqueueAllKeeps(cfg, Enqueue(cfg, ch)); }
  }

  // ---------- the command times cover the whole trace ----------

  predicate InRange(cfg: Config, c: Cmd) {
    c.rank < cfg.numRanks && c.bank < cfg.numBanks
  }

  /** The channel remembers, for each command, one of the same kind at least as late. */
  predicate Covers(cfg: Config, ch: Chan, c: Cmd)
    requires Shape(cfg, ch) && InRange(cfg, c)
  {
    var rk := ch.ranks[c.rank];
    var b := rk.banks[c.bank];
    && c.time <= ch.clock
    && match c.kind
       case Pre => c.time <= b.lastPre
       case Act => c.time <= b.lastAct
       case Rd => c.time <= b.lastRd && c.time <= rk.lastRd && c.time <= ch.lastRd
       case Wr => c.time <= b.lastWr && c.time <= rk.lastWr && c.time <= ch.lastWr
  }

  /** No remembered time lies in the future. */
  predicate NoneLater(cfg: Config, ch: Chan)
    requires Shape(cfg, ch)
  {
    && ch.lastPre <= ch.clock && ch.lastAct <= ch.clock && ch.lastRd <= ch.clock && ch.lastWr <= ch.clock
    && forall r, b | 0 <= r < cfg.numRanks && 0 <= b < cfg.numBanks ::
         var k := BankAt(ch, r, b);
         && k.lastPre <= ch.lastPre && k.lastAct <= ch.lastAct
         && k.lastRd <= ch.ranks[r].lastRd <= ch.lastRd
         && k.lastWr <= ch.ranks[r].lastWr <= ch.lastWr
  }

  predicate Spaced(t: Timing, trace: seq<Cmd>) {
    forall i, j | 0 <= i < j < |trace| ::
      trace[i].time < trace[j].time && trace[j].time - trace[i].time >= MinGap(t, trace[i], trace[j])
  }

  predicate Timed(cfg: Config, r: Run) {
    && Shape(cfg, r.ch)
    && NoneLater(cfg, r.ch)
    && (forall k | 0 <= k < |r.trace| :: InRange(cfg, r.trace[k]) && Covers(cfg, r.ch, r.trace[k]))
    && Spaced(cfg.t, r.trace)
  }

  function Max(x: int, y: int): int { if x < y then y else x }

  /** The cycles the memory parts require between command a and a later command b, for every pair of
      kinds and for the same bank, another bank of the rank, or another rank. */
  function MinGap(t: Timing, a: Cmd, b: Cmd): int {
    var sameRank := a.rank == b.rank;
    match (a.kind, b.kind)
    case (Pre, Act) => if a.SameBank(b) then t.tRP else 0
    case (Act, Pre) => if a.SameBank(b) then t.tRAS else 0
    case (Act, Act) => if a.SameBank(b) then t.tRC else if sameRank then t.tRRD else 0
    case (Act, Rd) => if a.SameBank(b) then t.tRCD else 0
    case (Act, Wr) => if a.SameBank(b) then t.tRCD else 0
    case (Rd, Pre) => if a.SameBank(b) then t.tRTP else 0
    case (Wr, Pre) => if a.SameBank(b) then t.tWL + t.Burst() + t.tWR else 0
    case (Rd, Rd) => if sameRank then t.tCCD else t.Burst() + t.tRTRS
    case (Wr, Wr) => if sameRank then t.tCCD else t.Burst() + t.tOST
    case (Rd, Wr) =>
      var turn := t.tCL + t.Burst() + t.tRTRS - t.tWL;
      if sameRank then Max(t.tCCD, turn) else turn
    case (Wr, Rd) =>
      if sameRank then Max(t.tCCD, t.tWL + t.Burst() + t.tWTR) else t.tWL + t.Burst() + t.tRTRS - t.tCL
    case (Pre, _) => 0
    case (_, _) => 0
  }

  /** One passed guard spaces the new command from every earlier one it covers. */
  lemma GuardSpaces(cfg: Config, ch: Chan, a: Cmd, c: Cmd)
    requires Shape(cfg, ch) && InRange(cfg, a) && InRange(cfg, c) && Covers(cfg, ch, a)
    requires CanIssue(cfg.t, ch, c) && c.time == ch.clock
    ensures c.time - a.time >= MinGap(cfg.t, a, c)
  {
    if a.rank != c.rank && a.kind.Rd? { assert c.kind.Rd? ==> c.time - ch.ranks[a.rank].lastRd >= cfg.t.tRTRS + cfg.t.Burst(); }
    if a.rank == c.rank && a.bank != c.bank && a.kind.Act? && c.kind.Act? {
      assert c.time - ch.ranks[c.rank].banks[a.bank].lastAct >= cfg.t.tRRD;
    }
  }

  lemma CommandKeepsCover(cfg: Config, ch: Chan, a: Cmd, c: Cmd)
    requires Shape(cfg, ch) && InRange(cfg, a) && InRange(cfg, c) && Covers(cfg, ch, a) && c.time == ch.clock
    ensures Shape(cfg, ChanAfter(ch, c)) && Covers(cfg, ChanAfter(ch, c), a) && Covers(cfg, ChanAfter(ch, c), c)
  {
  }

  lemma CommandKeepsNoneLater(cfg: Config, ch: Chan, c: Cmd)
    requires Shape(cfg, ch) && InRange(cfg, c) && NoneLater(cfg, ch) && c.time == ch.clock
    ensures Shape(cfg, ChanAfter(ch, c)) && NoneLater(cfg, ChanAfter(ch, c))
  {
    var ch' := ChanAfter(ch, c);
    forall r, b | 0 <= r < cfg.numRanks && 0 <= b < cfg.numBanks
      ensures var k := BankAt(ch', r, b);
         && k.lastPre <= ch'.lastPre && k.lastAct <= ch'.lastAct
         && k.lastRd <= ch'.ranks[r].lastRd <= ch'.lastRd
         && k.lastWr <= ch'.ranks[r].lastWr <= ch'.lastWr
    {
      var k0 := BankAt(ch, r, b);
      if r != c.rank || b != c.bank { assert BankAt(ch', r, b) == k0; }
    }
  }

  /** Two channels that remember the same banks and times satisfy the same time conditions. */
  predicate SameTimes(cfg: Config, ch: Chan, ch': Chan)
    requires Shape(cfg, ch) && Shape(cfg, ch')
  {
    && ch'.lastPre == ch.lastPre && ch'.lastAct == ch.lastAct && ch'.lastRd == ch.lastRd && ch'.lastWr == ch.lastWr
    && ch.clock <= ch'.clock
    && forall r | 0 <= r < cfg.numRanks ::
         && ch'.ranks[r].banks == ch.ranks[r].banks
         && ch'.ranks[r].lastRd == ch.ranks[r].lastRd && ch'.ranks[r].lastWr == ch.ranks[r].lastWr
  }

  lemma PrepareKeepsTimes(cfg: Config, ch: Chan)
    requires Shape(cfg, ch)
    ensures SameTimes(cfg, ch, Prepare(cfg, ch)) && Prepare(cfg, ch).clock == ch.clock + 1
  {
    EnqueueAllKeeps(cfg, Advance(cfg, ch));
  }

  lemma NoneLaterUnderSameTimes(cfg: Config, ch: Chan, ch': Chan)
    requires Shape(cfg, ch) && Shape(cfg, ch') && SameTimes(cfg, ch, ch') && NoneLater(cfg, ch)
    ensures NoneLater(cfg, ch')
  {
    forall r, b | 0 <= r < cfg.numRanks && 0 <= b < cfg.numBanks
      ensures var k := BankAt(ch', r, b);
         && k.lastPre <= ch'.lastPre && k.lastAct <= ch'.lastAct
         && k.lastRd <= ch'.ranks[r].lastRd <= ch'.lastRd
         && k.lastWr <= ch'.ranks[r].lastWr <= ch'.lastWr
    {
      assert ch'.ranks[r].banks == ch.ranks[r].banks;
      assert BankAt(ch', r, b) == BankAt(ch, r, b);
    }
  }

  lemma CoversUnderSameTimes(cfg: Config, ch: Chan, ch': Chan, c: Cmd)
    requires Shape(cfg, ch) && Shape(cfg, ch') && SameTimes(cfg, ch, ch') && InRange(cfg, c) && Covers(cfg, ch, c)
    ensures Covers(cfg, ch', c)
  {
    assert ch'.ranks[c.rank].banks == ch.ranks[c.rank].banks;
  }

  lemma TimedUnderSameTimes(cfg: Config, r: Run, ch': Chan)
    requires Timed(cfg, r) && Shape(cfg, ch') && SameTimes(cfg, r.ch, ch')
    ensures Timed(cfg, r.(ch := ch'))
  {
    hide Spaced, Covers, NoneLater, SameTimes, Shape;
    NoneLaterUnderSameTimes(cfg, r.ch, ch');
    forall k | 0 <= k < |r.trace| ensures InRange(cfg, r.trace[k]) && Covers(cfg, ch', r.trace[k]) {
      CoversUnderSameTimes(cfg, r.ch, ch', r.trace[k]);
    }
  }

  lemma TimedIssue(cfg: Config, r: Run, i: nat)
    requires Timed(cfg, r) && Ready(cfg, r.ch, i)
    requires forall k | 0 <= k < |r.trace| :: r.trace[k].time < r.ch.clock
    ensures var o := Issue(cfg, r.ch, i);
      o.cmd.Some? && Timed(cfg, r.(ch := o.ch, trace := r.trace + [o.cmd.value]))
  {
    var c := CmdFor(cfg, r.ch, i);
    var o := Issue(cfg, r.ch, i);
    var trace' := r.trace + [c];
    var mid := ChanAfter(r.ch, c);
    CommandKeepsNoneLater(cfg, r.ch, c);
    forall k | 0 <= k < |trace'| ensures InRange(cfg, trace'[k]) && Covers(cfg, mid, trace'[k]) {
      if k < |r.trace| { CommandKeepsCover(cfg, r.ch, r.trace[k], c); }
    }
    forall a, b | 0 <= a < b < |trace'|
      ensures trace'[a].time < trace'[b].time && trace'[b].time - trace'[a].time >= MinGap(cfg.t, trace'[a], trace'[b])
    {
      if b == |r.trace| { GuardSpaces(cfg, r.ch, r.trace[a], c); }
    }
    var midRun := r.(ch := mid, trace := trace');
    assert Timed(cfg, midRun);
    TimedUnderSameTimes(cfg, midRun, o.ch);
  }

  lemma TimedStep(cfg: Config, r: Run, e: Event)
    requires Timed(cfg, r)
    ensures Timed(cfg, Step(cfg, r, e))
  {
    if e.Arrival? {
      TimedUnderSameTimes(cfg, r, Arrive(r.ch, Arriving(r, e)));
    } else {
      var ch1 := Prepare(cfg, r.ch);
      PrepareKeepsTimes(cfg, r.ch);
      TimedUnderSameTimes(cfg, r, ch1);
      var i := Decide(cfg, e.p, ch1);
      if i.Some? {
        forall k | 0 <= k < |r.trace| ensures r.trace[k].time < ch1.clock {
          assert Covers(cfg, r.ch, r.trace[k]);
        }
        TimedIssue(cfg, r.(ch := ch1), i.value);
      }
    }
  }

  lemma {:induction false} TimedRun(cfg: Config, events: seq<Event>)
    requires cfg.Valid()
    ensures Timed(cfg, Exec(cfg, events))
  {
    if events != [] {
      TimedRun(cfg, events[..|events| - 1]);
      TimedStep(cfg, Exec(cfg, events[..|events| - 1]), events[|events| - 1]);
    }
  }

  // ---------- main results on timing ----------

  /** In every run, under any mix of the two schedulers, every pair of commands keeps the distance that the
      memory parts require, however many commands lie between them; and each cycle sends at most one. */
  lemma TimingSafety(cfg: Config, events: seq<Event>)
    requires cfg.Valid()
    ensures var trace := Exec(cfg, events).trace;
      forall i, j | 0 <= i < j < |trace| ::
        trace[i].time < trace[j].time && trace[j].time - trace[i].time >= MinGap(cfg.t, trace[i], trace[j])
  {
    TimedRun(cfg, events);
  }

  /** The first cycle in which a read or write has its data on the bus. */
  function BurstStart(t: Timing, c: Cmd): int {
    c.time + (if c.kind.Rd? then t.tCL else t.tWL)
  }

  /** Exactly the reads and writes complete a reference, and the reference completed by a read is one that waits for it. */
  lemma CompletionSends(cfg: Config, p: Policy, ch: Chan)
    requires Shape(cfg, ch)
    ensures var o := Tick(cfg, p, ch);
      && (o.done.Some? <==> o.cmd.Some? && o.cmd.value.kind.Cas())
      && (o.done.Some? ==> (o.cmd.value.kind.Rd? <==> o.done.value.rdPending))
  {
    var i := Decide(cfg, p, Prepare(cfg, ch));
  }

  /** What a DRAM cycle at processor time `now` answers, and when: the reference that its read or write completes, one
      DRAM cycle of `multiplier` processor cycles after the last cycle of that command's burst. */
  function Answer(t: Timing, multiplier: nat, now: nat, o: Outcome): Option<(MemRef, int)> {
    if o.done.Some? && o.cmd.Some? then
      Some((o.done.value, now + multiplier * (BurstStart(t, o.cmd.value) - o.cmd.value.time + t.BL / 2 + 1)))
    else None
  }

  predicate BurstsDisjoint(t: Timing, trace: seq<Cmd>) {
    forall i, j | 0 <= i < j < |trace| && trace[i].kind.Cas() && trace[j].kind.Cas() ::
      BurstStart(t, trace[i]) + t.Burst() <= BurstStart(t, trace[j])
  }
}
