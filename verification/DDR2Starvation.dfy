/**
 The first-ready scheduler can starve a request: behind a stream of reads of an open row, or
 of writes, a request for another row of the bank waits as long as the stream lasts, if the
 next one may always be sent by the time that the bank could be precharged.
 */
module DDR2Starvation {
  import opened Options
  import opened DDR2State
  import opened DDR2Trace
  import opened DDR2Rows
  import opened DDR2Queue
  import opened DDR2Service
  import opened DDR2Waiting
  import opened DDR2Bus
  import opened DDR2Conflict

  /** The longest that the next read, or write, of the stream takes: as the distance between two of them, but with two
      slots, one of them lost to the starved request, a cycle goes by before the next one may be served. */
  function HitGap(cfg: Config, kind: Kind): (g: int)
    ensures g >= 1
  {
    var slots := if cfg.queueSize == 2 then 2 else 1;
    Max(slots, if kind.Wr? && 1 < cfg.numRanks then Max(cfg.t.tCCD, cfg.t.tOST + cfg.t.Burst()) else cfg.t.tCCD)
  }

  /** How long a read, or a write, keeps its bank from being precharged, at least the rest of its cycle. */
  function Hold(t: Timing, kind: Kind): int {
    Max(1, if kind.Rd? then t.tRTP else t.tWR + t.tWL + t.Burst())
  }

  function LastOf(b: Bank, kind: Kind): nat {
    if kind.Rd? then b.lastRd else b.lastWr
  }

  /** The request is a read, or a write, of c's row. */
  predicate Hits(cfg: Config, x: Request, c: Cmd)
    requires cfg.Valid()
  {
    var l := Decode(cfg, x.pAddr);
    x.IsRead() == c.kind.Rd? && l.rank == c.rank && l.bank == c.bank && l.row == c.row
  }

  /** c's row is open, the reference in slot v is for another row of the bank, and all others are like c. */
  predicate Loaded(cfg: Config, ch: Chan, v: nat, c: Cmd) {
    && SlotsKept(cfg, ch) && Flags(cfg, ch) && Stamped(ch) && c.kind.Cas()
    && InRange(cfg, c) && 0 <= c.row && BankAt(ch, c.rank, c.bank).active && BankAt(ch, c.rank, c.bank).openRow == c.row
    && v < cfg.queueSize && ch.q[v].valid && ch.q[v].rank == c.rank && ch.q[v].bank == c.bank && ch.q[v].row != c.row
    && (forall i | 0 <= i < cfg.queueSize && i != v && ch.q[i].valid ::
          ch.q[i].isRead == c.kind.Rd? && ch.q[i].rank == c.rank && ch.q[i].bank == c.bank && ch.q[i].row == c.row)
    && (forall k | 0 <= k < |ch.arrivals| :: Hits(cfg, ch.arrivals[k], c))
  }

  /** So far c is the last one of the stream. Only the cycle that sent it leaves a slot free. */
  predicate Streaming(cfg: Config, ch: Chan, v: nat, c: Cmd) {
    && Loaded(cfg, ch, v, c)
    && c.time <= LastOf(BankAt(ch, c.rank, c.bank), c.kind) && c.time <= ch.clock < c.time + HitGap(cfg, c.kind)
    && CanIssue(cfg.t, ch, Next(cfg, c))
    && (ch.free == [] || (|ch.free| == 1 && ch.clock == c.time))
  }

  /** The next one of the stream, at the latest. */
  function Next(cfg: Config, c: Cmd): Cmd {
    c.(time := c.time + HitGap(cfg, c.kind))
  }

  lemma CanIssueLater(t: Timing, ch: Chan, c: Cmd, later: nat)
    requires c.rank < |ch.ranks| && c.bank < |ch.ranks[c.rank].banks|
    requires CanIssue(t, ch, c) && c.time <= later
    ensures CanIssue(t, ch, c.(time := later))
  {
  }

  /** A read or write that can be sent leaves the next one of its row no longer than the gap to wait. */
  lemma CasLeavesGap(cfg: Config, ch: Chan, c: Cmd)
    requires Shape(cfg, ch) && InRange(cfg, c) && c.kind.Cas() && CanIssue(cfg.t, ch, c)
    ensures Shape(cfg, ChanAfter(ch, c)) && CanIssue(cfg.t, ChanAfter(ch, c), Next(cfg, c))
  {
    var ch2 := ChanAfter(ch, c);
    assert forall i | 0 <= i < |ch2.ranks| && i != c.rank :: ch2.ranks[i] == ch.ranks[i];
  }

  // ---------- one decision ----------

  /** In a loaded channel a hit of the row needs only its turn, and the other reference a precharge. */
  lemma LoadedNeeds(cfg: Config, ch: Chan, v: nat, c: Cmd, i: nat)
    requires Loaded(cfg, ch, v, c) && i < cfg.queueSize && ch.q[i].valid
    ensures Needs(ch.q[i]) == Some(if i == v then Pre else c.kind)
    ensures CmdFor(cfg, ch, i).rank == c.rank && CmdFor(cfg, ch, i).bank == c.bank
    ensures i != v ==> CmdFor(cfg, ch, i).row == c.row
  {
    assert FlagsRight(ch.q[i], BankAt(ch, ch.q[i].rank, ch.q[i].bank));
  }

  /** A hit sent keeps the stream going. */
  lemma HitStreams(cfg: Config, ch: Chan, v: nat, c: Cmd, f: nat)
    requires Loaded(cfg, ch, v, c) && ch.free == [] && cfg.queueSize >= 2 && f != v && Ready(cfg, ch, f)
    ensures var o := Issue(cfg, ch, f);
      && o.cmd.Some? && o.cmd.value.kind == c.kind && Streaming(cfg, o.ch, v, o.cmd.value)
      && o.ch.q[v] == ch.q[v] && o.ch.arrivals == ch.arrivals && o.done.Some?
  {
    LoadedNeeds(cfg, ch, v, c, f);
    var d, o := CmdFor(cfg, ch, f), Issue(cfg, ch, f);
    IssueKeepsSlots(cfg, ch, f);
    CasLeavesGap(cfg, ch, d);
    assert o.ch.ranks == ChanAfter(ch, d).ranks && o.ch.lastRd == ChanAfter(ch, d).lastRd && o.ch.lastWr == ChanAfter(ch, d).lastWr;
    assert BankAt(o.ch, c.rank, c.bank) == BankAfter(BankAt(ch, c.rank, c.bank), d);
    forall i | 0 <= i < cfg.queueSize && o.ch.q[i].valid
      ensures FlagsRight(o.ch.q[i], BankAt(o.ch, o.ch.q[i].rank, o.ch.q[i].bank))
    {
      assert FlagsRight(ch.q[i], BankAt(ch, ch.q[i].rank, ch.q[i].bank));
    }
  }

  /** With a hit h that may go, one goes. */
  lemma HitServed(cfg: Config, ch: Chan, v: nat, c: Cmd, h: nat) returns (d: Cmd)
    requires Loaded(cfg, ch, v, c) && ch.free == [] && cfg.queueSize >= 2
    requires h < cfg.queueSize && h != v && ch.q[h].valid && ch.q[h].ts < ch.clock
    requires CanIssue(cfg.t, ch, c.(time := ch.clock))
    ensures var o := ScheduleFrFcfs(cfg, ch);
      && Streaming(cfg, o.ch, v, d) && o.ch.q[v] == ch.q[v] && o.ch.arrivals == ch.arrivals
      && o.done.Some? && d.time == o.ch.clock == ch.clock && d.kind == c.kind
  {
    LoadedNeeds(cfg, ch, v, c, h);
    assert CmdFor(cfg, ch, h) == c.(time := ch.clock);
    assert CasCandidate(cfg, ch, h);
    FirstReadyServes(cfg, ch);
    var f := FrChoice(cfg, ch).value;
    LoadedNeeds(cfg, ch, v, c, f);
    HitStreams(cfg, ch, v, c, f);
    d := CmdFor(cfg, ch, f);
  }

  /** Before a hit may go at the latest, the bank cannot be precharged. */
  lemma NoPrecharge(cfg: Config, ch: Chan, v: nat, c: Cmd)
    requires Loaded(cfg, ch, v, c) && HitGap(cfg, c.kind) <= Hold(cfg.t, c.kind)
    requires c.time <= LastOf(BankAt(ch, c.rank, c.bank), c.kind) && c.time < ch.clock < c.time + HitGap(cfg, c.kind)
    ensures !Ready(cfg, ch, v)
  {
    LoadedNeeds(cfg, ch, v, c, v);
  }

  /** So until then a hit goes or nothing does. */
  lemma HitOrNothing(cfg: Config, ch: Chan, v: nat, c: Cmd) returns (d: Cmd)
    requires Loaded(cfg, ch, v, c) && ch.free == [] && cfg.queueSize >= 2 && HitGap(cfg, c.kind) <= Hold(cfg.t, c.kind)
    requires c.time <= LastOf(BankAt(ch, c.rank, c.bank), c.kind) && c.time < ch.clock < c.time + HitGap(cfg, c.kind)
    requires CanIssue(cfg.t, ch, Next(cfg, c))
    ensures var o := ScheduleFrFcfs(cfg, ch);
      && Streaming(cfg, o.ch, v, d) && o.ch.q[v] == ch.q[v] && o.ch.arrivals == ch.arrivals
      && o.ch.clock == ch.clock && d.kind == c.kind && (if o.done.Some? then d.time == ch.clock else d == c)
  {
    FirstReadyServes(cfg, ch);
    NoPrecharge(cfg, ch, v, c);
    if ScheduleFrFcfs(cfg, ch).cmd.None? {
      d := c;
    } else {
      var f := FrChoice(cfg, ch).value;
      HitStreams(cfg, ch, v, c, f);
      d := CmdFor(cfg, ch, f);
    }
  }

  // ---------- one cycle ----------

  lemma LoadedAdvance(cfg: Config, ch: Chan, v: nat, c: Cmd)
    requires Loaded(cfg, ch, v, c)
    ensures var ch1 := Advance(cfg, ch);
      Loaded(cfg, ch1, v, c) && BankAt(ch1, c.rank, c.bank) == BankAt(ch, c.rank, c.bank)
  {
    var ch1 := Advance(cfg, ch);
    assert forall k | 0 <= k < cfg.numRanks :: ch1.ranks[k].banks == ch.ranks[k].banks;
  }

  /** The next one of the stream takes the free slot. */
  lemma LoadedEnqueue(cfg: Config, ch: Chan, v: nat, c: Cmd)
    requires Loaded(cfg, ch, v, c) && ch.free != [] && ch.arrivals != []
    ensures var ch1 := Enqueue(cfg, ch); Loaded(cfg, ch1, v, c) && ch1.q[v] == ch.q[v]
  {
    EnqueueKeepsSlots(cfg, ch);
    var ch1 := Enqueue(cfg, ch);
    assert Hits(cfg, ch.arrivals[0], c);
    forall i | 0 <= i < cfg.queueSize && ch1.q[i].valid
      ensures FlagsRight(ch1.q[i], BankAt(ch1, ch1.q[i].rank, ch1.q[i].bank))
    {
      if i != ch.free[0] { assert FlagsRight(ch.q[i], BankAt(ch, ch.q[i].rank, ch.q[i].bank)); }
    }
  }

  lemma StreamPrepare(cfg: Config, ch: Chan, v: nat, c: Cmd)
    requires Streaming(cfg, ch, v, c) && |ch.arrivals| >= 1
    ensures var ch1 := Prepare(cfg, ch);
      && Loaded(cfg, ch1, v, c) && ch1.free == [] && ch1.q[v] == ch.q[v] && |ch1.arrivals| >= |ch.arrivals| - 1
      && ch1.clock == ch.clock + 1 && BankAt(ch1, c.rank, c.bank) == BankAt(ch, c.rank, c.bank)
      && CanIssue(cfg.t, ch1, Next(cfg, c))
      && (forall i | 0 <= i < cfg.queueSize && ch.q[i].valid :: ch1.q[i] == ch.q[i])
  {
    var ch0 := Advance(cfg, ch);
    LoadedAdvance(cfg, ch, v, c);
    AdvanceKeepsGuard(cfg, ch, Next(cfg, c));
    EnqueueAllAt(cfg, ch0);
    if ch.free != [] {
      LoadedEnqueue(cfg, ch0, v, c);
      assert EnqueueAll(cfg, Enqueue(cfg, ch0)) == Enqueue(cfg, ch0);
    }
  }

  /** A hit queued before this cycle, when the stream's next one is due at once. */
  lemma NextHit(cfg: Config, ch: Chan, v: nat, c: Cmd) returns (h: nat)
    requires Streaming(cfg, ch, v, c) && cfg.queueSize >= 2 && ch.clock + 1 == c.time + HitGap(cfg, c.kind)
    ensures h < cfg.queueSize && h != v && ch.q[h].valid
  {
    h := if v == 0 then 1 else 0;
    if h in ch.free { h := if v <= 1 then 2 else 1; }
  }

  lemma StreamCycle(cfg: Config, r: Run, v: nat, c: Cmd) returns (d: Cmd)
    requires Streaming(cfg, r.ch, v, c) && |r.ch.arrivals| >= 1
    requires cfg.queueSize >= 2 && HitGap(cfg, c.kind) <= Hold(cfg.t, c.kind)
    ensures var r' := Step(cfg, r, Cycle(FrFcfs));
      && Streaming(cfg, r'.ch, v, d) && r'.ch.q[v] == r.ch.q[v] && |r'.ch.arrivals| >= |r.ch.arrivals| - 1
      && r'.ch.clock == r.ch.clock + 1 && d.kind == c.kind
      && (if |r'.done| == |r.done| then d == c else |r'.done| == |r.done| + 1 && d.time == r'.ch.clock)
  {
    var ch1 := Prepare(cfg, r.ch);
    StreamPrepare(cfg, r.ch, v, c);
    var r', o := Step(cfg, r, Cycle(FrFcfs)), ScheduleFrFcfs(cfg, ch1);
    assert r'.ch == o.ch && r'.done == Log(r.done, o.done);
    if ch1.clock == c.time + HitGap(cfg, c.kind) {
      var h := NextHit(cfg, r.ch, v, c);
      d := HitServed(cfg, ch1, v, c, h);
    } else {
      d := HitOrNothing(cfg, ch1, v, c);
    }
  }

  // ---------- along a run ----------

  /** How far the stream has got since r, in cycles: the gap for each hit served, and what has passed since the last. */
  function Progress(cfg: Config, r: Run, r': Run, d: Cmd): int {
    (|r'.done| - |r.done|) * HitGap(cfg, d.kind) + r'.ch.clock - d.time
  }

  lemma ProgressCycle(cfg: Config, r: Run, mid: Run, c: Cmd, r': Run, d: Cmd)
    requires d.kind == c.kind && mid.ch.clock - c.time < HitGap(cfg, c.kind) && r'.ch.clock == mid.ch.clock + 1
    requires if |r'.done| == |mid.done| then d == c else |r'.done| == |mid.done| + 1 && d.time == r'.ch.clock
    ensures Progress(cfg, r, r', d) >= Progress(cfg, r, mid, c) + 1
  {
    var k := |mid.done| - |r.done|;
    assert (k + 1) * HitGap(cfg, c.kind) == k * HitGap(cfg, c.kind) + HitGap(cfg, c.kind);
  }

  /** However long it goes on, the stream leaves the other reference where it is, and serves a hit at least every
      HitGap cycles. */
  lemma {:induction false} StreamAlong(cfg: Config, r: Run, v: nat, c: Cmd, n: nat) returns (d: Cmd)
    requires Shape(cfg, r.ch) && v < |r.ch.q| && Streaming(cfg, r.ch, v, c) && r.ch.clock == c.time && |r.ch.arrivals| >= n
    requires cfg.queueSize >= 2 && HitGap(cfg, c.kind) <= Hold(cfg.t, c.kind)
    ensures var r' := RunFrom(cfg, r, Repeat(n, Cycle(FrFcfs)));
      && v < |r'.ch.q| && d.kind == c.kind && Streaming(cfg, r'.ch, v, d) && r'.ch.q[v] == r.ch.q[v]
      && |r'.ch.arrivals| >= |r.ch.arrivals| - n && Progress(cfg, r, r', d) >= n
  {
    if n == 0 {
      d := c;
    } else {
      var before := StreamAlong(cfg, r, v, c, n - 1);
      RepeatMore(cfg, r, n - 1, Cycle(FrFcfs));
      var mid := RunFrom(cfg, r, Repeat(n - 1, Cycle(FrFcfs)));
      d := StreamCycle(cfg, mid, v, before);
      ProgressCycle(cfg, r, mid, before, Step(cfg, mid, Cycle(FrFcfs)), d);
      hide *;
    }
  }

  // ---------- how a stream begins ----------

  /** Nothing is in the system. */
  predicate Idle(cfg: Config, ch: Chan) {
    Shape(cfg, ch) && ch.arrivals == [] && forall i | 0 <= i < |ch.q| :: !ch.q[i].valid
  }

  /** And the row of address 0 is open. */
  predicate OpenIdle(cfg: Config, ch: Chan) {
    Idle(cfg, ch) && BankAt(ch, 0, 0).active && BankAt(ch, 0, 0).openRow == 0
  }

  lemma IdleCycle(cfg: Config, r: Run)
    requires Idle(cfg, r.ch)
    ensures var r' := Step(cfg, r, Cycle(FrFcfs));
      && Idle(cfg, r'.ch) && r'.ch.clock == r.ch.clock + 1 && LastCmd(r'.ch) == LastCmd(r.ch)
      && BankAt(r'.ch, 0, 0) == BankAt(r.ch, 0, 0) && r'.done == r.done && r'.arrived == r.arrived
  {
    QuietPrepare(cfg, r.ch);
    var ch1 := Advance(cfg, r.ch);
    var i := Decide(cfg, FrFcfs, ch1);
    assert BankAt(ch1, 0, 0) == BankAt(r.ch, 0, 0);
  }

  lemma {:induction false} IdleAlong(cfg: Config, r: Run, n: nat)
    requires Idle(cfg, r.ch)
    ensures var r' := RunFrom(cfg, r, Repeat(n, Cycle(FrFcfs)));
      && Idle(cfg, r'.ch) && r'.ch.clock == r.ch.clock + n && LastCmd(r'.ch) == LastCmd(r.ch)
      && BankAt(r'.ch, 0, 0) == BankAt(r.ch, 0, 0) && r'.done == r.done && r'.arrived == r.arrived
  {
    if n > 0 {
      IdleAlong(cfg, r, n - 1);
      RepeatMore(cfg, r, n - 1, Cycle(FrFcfs));
      IdleCycle(cfg, RunFrom(cfg, r, Repeat(n - 1, Cycle(FrFcfs))));
    }
  }

  lemma {:induction false} ArriveAlong(cfg: Config, r: Run, n: nat, op: MemOp)
    requires Shape(cfg, r.ch)
    ensures var r' := RunFrom(cfg, r, Repeat(n, Arrival(0, op)));
      && r'.ch == r.ch.(arrivals := r'.ch.arrivals) && |r'.ch.arrivals| == |r.ch.arrivals| + n
      && (forall k | 0 <= k < |r.ch.arrivals| :: r'.ch.arrivals[k] == r.ch.arrivals[k])
      && (forall k | |r.ch.arrivals| <= k < |r'.ch.arrivals| :: r'.ch.arrivals[k].pAddr == 0 && r'.ch.arrivals[k].op == op)
  {
    if n > 0 {
      ArriveAlong(cfg, r, n - 1, op);
      RepeatMore(cfg, r, n - 1, Arrival(0, op));
    }
  }

  /** The row of address 0 is open, all guards are, and one request for it, one for another row, and many for it wait
      outside, the same operation all. */
  predicate Poised(cfg: Config, ch: Chan, op: MemOp) {
    && OpenIdle(cfg, ch.(arrivals := [])) && ch.clock >= LastCmd(ch) + CasBound(cfg.t)
    && |ch.arrivals| >= cfg.queueSize >= 2
    && ch.arrivals[1].pAddr == ConflictAddr(cfg)
    && (forall k | 0 <= k < |ch.arrivals| :: ch.arrivals[k].op == op && (k != 1 ==> ch.arrivals[k].pAddr == 0))
  }

  /** All new entries are built from requests that waited. */
  lemma {:induction false} EnqueueAllNew(cfg: Config, ch: Chan)
    requires SlotsKept(cfg, ch)
    ensures var ch' := EnqueueAll(cfg, ch);
      forall i | 0 <= i < |ch.q| && !ch.q[i].valid && ch'.q[i].valid ::
        ch'.q[i].request.Some? && ch'.q[i] == NewRef(cfg, ch, ch'.q[i].request.value)
    decreases |ch.arrivals|
  {
    if ch.free != [] && ch.arrivals != [] {
      EnqueueKeepsSlots(cfg, ch);
      EnqueueAllNew(cfg, Enqueue(cfg, ch));
      EnqueueAllAt(cfg, Enqueue(cfg, ch));
    }
  }

  lemma AllFree(cfg: Config, ch: Chan)
    requires SlotsKept(cfg, ch) && cfg.queueSize >= 2 && forall i | 0 <= i < |ch.q| :: !ch.q[i].valid
    ensures 2 <= |ch.free| <= cfg.queueSize
  {
    FreeAtMost(cfg, ch);
    var z: nat, one: nat := 0, 1;
    assert z in ch.free && one in ch.free;
    assert ch.free != [0] && ch.free != [1];
  }

  predicate IsRead(op: MemOp) { Request(0, 0, op).IsRead() }

  /** A read, or write, of address 0. */
  function First0(op: MemOp): Cmd {
    Cmd(if IsRead(op) then Rd else Wr, 0, 0, 0, 0)
  }

  /** The entry that request p of a poised channel becomes. */
  lemma FilledSlot(cfg: Config, ch: Chan, p: nat, op: MemOp)
    requires SlotsKept(cfg, ch) && Stamped(ch) && Poised(cfg, ch, op) && p < |ch.free| <= cfg.queueSize
    ensures var m := Prepare(cfg, ch).q[ch.free[p]];
      && m.valid && m.isRead == IsRead(op) && m.rank == 0 && m.bank == 0 && (m.row == 0 <==> p != 1) && m.ts == ch.clock + 1
  {
    var ch0 := Advance(cfg, ch);
    EnqueueAllAt(cfg, ch0);
    EnqueueAllNew(cfg, ch0);
    ConflictDecodes(cfg);
    hide ConflictAddr, EnqueueAll;
    assert !ch0.q[ch.free[p]].valid;
    assert Prepare(cfg, ch).q[ch.free[p]] == NewRef(cfg, ch0, ch.arrivals[p]);
  }

  lemma AllFilled(cfg: Config, ch: Chan, op: MemOp)
    requires SlotsKept(cfg, ch) && Stamped(ch) && Poised(cfg, ch, op) && 2 <= |ch.free| <= cfg.queueSize
    ensures forall i: nat | i < cfg.queueSize :: var m := Prepare(cfg, ch).q[i];
      m.valid && m.isRead == IsRead(op) && m.rank == 0 && m.bank == 0 && m.ts == ch.clock + 1 && (m.row == 0 <==> i != ch.free[1])
  {
    forall i: nat | i < cfg.queueSize
      ensures var m := Prepare(cfg, ch).q[i];
        m.valid && m.isRead == IsRead(op) && m.rank == 0 && m.bank == 0 && m.ts == ch.clock + 1 && (m.row == 0 <==> i != ch.free[1])
    {
      assert i in ch.free;
      var p :| 0 <= p < |ch.free| && ch.free[p] == i;
      FilledSlot(cfg, ch, p, op);
    }
  }

  lemma FilledLoaded(cfg: Config, ch: Chan, ch1: Chan, op: MemOp)
    requires Poised(cfg, ch, op) && 2 <= |ch.free| <= cfg.queueSize && SlotsKept(cfg, ch1) && Flags(cfg, ch1) && Stamped(ch1)
    requires ch1.arrivals == ch.arrivals[|ch.free|..] && ch.free[1] < cfg.queueSize
    requires ch1.ranks[0].banks == ch.ranks[0].banks
    requires forall i: nat | i < cfg.queueSize :: var m := ch1.q[i];
      m.valid && m.isRead == IsRead(op) && m.rank == 0 && m.bank == 0 && (m.row == 0 <==> i != ch.free[1])
    ensures Loaded(cfg, ch1, ch.free[1], First0(op))
  {
    ConflictDecodes(cfg);
    hide ConflictAddr;
    assert BankAt(ch1, 0, 0) == BankAt(ch, 0, 0);
  }

  /** The first cycle fills the queue and can serve nothing yet. */
  lemma FillingCycle(cfg: Config, r: Run, op: MemOp) returns (v: nat)
    requires Sound(cfg, r) && Poised(cfg, r.ch, op)
    ensures var r' := Step(cfg, r, Cycle(FrFcfs));
      && Loaded(cfg, r'.ch, v, First0(op)) && r'.ch.free == []
      && r'.ch.clock >= LastCmd(r'.ch) + CasBound(cfg.t)
      && |r'.ch.arrivals| >= |r.ch.arrivals| - cfg.queueSize
  {
    var ch, ch1 := r.ch, Prepare(cfg, r.ch);
    AllFree(cfg, ch);
    v := ch.free[1];
    SoundPrepare(cfg, r);
    PrepareAt(cfg, ch);
    PrepareKeepsTimes(cfg, ch);
    AllFilled(cfg, ch, op);
    hide ConflictAddr, Prepare, ScheduleFrFcfs, Loaded;
    FilledLoaded(cfg, ch, ch1, op);
    NothingYet(cfg, ch1);
    assert Step(cfg, r, Cycle(FrFcfs)).ch == ch1;
  }

  lemma NothingYet(cfg: Config, ch1: Chan)
    requires SlotsKept(cfg, ch1) && forall i: nat | i < cfg.queueSize :: ch1.q[i].ts == ch1.clock
    ensures ScheduleFrFcfs(cfg, ch1).ch == ch1
  {
    var i := Decide(cfg, FrFcfs, ch1);
  }

  /** The second one serves a hit: the stream flows. */
  lemma FirstHit(cfg: Config, r: Run, v: nat, op: MemOp) returns (d: Cmd)
    requires Sound(cfg, r) && Loaded(cfg, r.ch, v, First0(op)) && r.ch.free == [] && cfg.queueSize >= 2
    requires r.ch.clock >= LastCmd(r.ch) + CasBound(cfg.t)
    ensures var r' := Step(cfg, r, Cycle(FrFcfs));
      Streaming(cfg, r'.ch, v, d) && d.kind == First0(op).kind && r'.ch.clock == d.time && r'.ch.arrivals == r.ch.arrivals
  {
    var ch1 := Advance(cfg, r.ch);
    var c := First0(op).(time := ch1.clock);
    assert Prepare(cfg, r.ch) == ch1;
    SoundPrepare(cfg, r);
    LoadedAdvance(cfg, r.ch, v, First0(op));
    assert Loaded(cfg, ch1, v, c);
    var h: nat := if v == 0 then 1 else 0;
    assert ch1.q[h].valid by { assert h in ch1.free <==> !ch1.q[h].valid; }
    GuardOpens(cfg, ch1, c);
    d := HitServed(cfg, ch1, v, c, h);
  }

  // ---------- main result ----------

  lemma ReadLeavesIdle(cfg: Config, r: Run)
    requires EndsWithRead(cfg, r)
    ensures OpenIdle(cfg, r.ch)
  {
    ConflictDecodes(cfg);
  }

  /** A channel in which the row of address 0 is open and nothing has happened for long. */
  lemma Rest(cfg: Config) returns (events: seq<Event>)
    requires cfg.Valid()
    ensures var r := Exec(cfg, events);
      Sound(cfg, r) && OpenIdle(cfg, r.ch) && r.ch.clock >= LastCmd(r.ch) + CasBound(cfg.t)
  {
    var start := Exec(cfg, []);
    SoundStart(cfg);
    var enter := OneArrives(cfg);
    SoundRun(cfg, start, enter);
    var read := OneReadEnds(cfg, Exec(cfg, enter));
    RunFromConcat(cfg, start, enter, read);
    var served := Exec(cfg, enter + read);
    ReadLeavesIdle(cfg, served);
    var n: nat := Max(0, LastCmd(served.ch) + CasBound(cfg.t) - served.ch.clock);
    hide EndsWithRead, OneRead, Sound, LastCmd, CasBound;
    IdleAlong(cfg, served, n);
    events := enter + read + Repeat(n, Cycle(FrFcfs));
    RunFromConcat(cfg, start, enter + read, Repeat(n, Cycle(FrFcfs)));
    SoundRun(cfg, start, events);
  }

  /** Then a request for the row, one for another row of the bank, and many for the row arrive. */
  lemma Crowd(cfg: Config, r: Run, n: nat, op: MemOp) returns (events: seq<Event>)
    requires cfg.Valid() && cfg.queueSize >= 2 && Sound(cfg, r)
    requires OpenIdle(cfg, r.ch) && r.ch.clock >= LastCmd(r.ch) + CasBound(cfg.t)
    ensures var r' := RunFrom(cfg, r, events); Poised(cfg, r'.ch, op) && |r'.ch.arrivals| >= cfg.queueSize + n
  {
    var a, b := Arrival(0, op), Arrival(ConflictAddr(cfg), op);
    var r1 := Step(cfg, r, a);
    var r2 := Step(cfg, r1, b);
    OneEvent(cfg, r, a);
    OneEvent(cfg, r1, b);
    RunFromConcat(cfg, r, [a], [b]);
    ArriveAlong(cfg, r2, cfg.queueSize + n, op);
    RunFromConcat(cfg, r, [a] + [b], Repeat(cfg.queueSize + n, a));
    events := [a] + [b] + Repeat(cfg.queueSize + n, a);
  }

  /** Two cycles later the stream flows. */
  lemma Flows(cfg: Config, r: Run, op: MemOp) returns (events: seq<Event>, v: nat, d: Cmd)
    requires Sound(cfg, r) && Poised(cfg, r.ch, op)
    ensures var r' := RunFrom(cfg, r, events);
      Streaming(cfg, r'.ch, v, d) && d.kind == First0(op).kind && r'.ch.clock == d.time && |r'.ch.arrivals| >= |r.ch.arrivals| - cfg.queueSize
  {
    var e := Cycle(FrFcfs);
    var r1 := Step(cfg, r, e);
    v := FillingCycle(cfg, r, op);
    SoundStep(cfg, r, e);
    d := FirstHit(cfg, r1, v, op);
    OneEvent(cfg, r, e);
    OneEvent(cfg, r1, e);
    RunFromConcat(cfg, r, [e], [e]);
    events := [e] + [e];
  }

  lemma FlowReached(cfg: Config, n: nat, op: MemOp) returns (prefix: seq<Event>, v: nat, d: Cmd)
    requires cfg.Valid() && cfg.queueSize >= 2
    ensures var r := Exec(cfg, prefix);
      Streaming(cfg, r.ch, v, d) && d.kind == First0(op).kind && r.ch.clock == d.time && |r.ch.arrivals| >= n
  {
    var start := Exec(cfg, []);
    var rest := Rest(cfg);
    var crowd := Crowd(cfg, Exec(cfg, rest), n, op);
    RunFromConcat(cfg, start, rest, crowd);
    SoundStart(cfg);
    SoundRun(cfg, start, rest + crowd);
    hide Poised, OpenIdle, Sound, Streaming;
    var more;
    more, v, d := Flows(cfg, Exec(cfg, rest + crowd), op);
    RunFromConcat(cfg, start, rest + crowd, more);
    prefix := rest + crowd + more;
  }

  /** k cycles after r the reference in slot v is still there, and the channel has served a hit every HitGap cycles. */
  predicate StillQueued(cfg: Config, r: Run, r': Run, v: nat, k: nat, kind: Kind) {
    && v < |r.ch.q| == |r'.ch.q| && r.ch.q[v].valid && r'.ch.q[v] == r.ch.q[v]
    && (|r'.done| - |r.done| + 1) * HitGap(cfg, kind) > k
  }

  lemma StreamingHolds(cfg: Config, ch: Chan, v: nat, c: Cmd)
    requires Streaming(cfg, ch, v, c)
    ensures Shape(cfg, ch) && v < |ch.q| == cfg.queueSize && ch.q[v].valid && ch.clock < c.time + HitGap(cfg, c.kind)
  {
  }

  lemma StreamStarves(cfg: Config, prefix: seq<Event>, v: nat, c: Cmd, k: nat)
    requires cfg.Valid() && Streaming(cfg, Exec(cfg, prefix).ch, v, c) && Exec(cfg, prefix).ch.clock == c.time
    requires |Exec(cfg, prefix).ch.arrivals| >= k && cfg.queueSize >= 2 && HitGap(cfg, c.kind) <= Hold(cfg.t, c.kind)
    ensures StillQueued(cfg, Exec(cfg, prefix), Exec(cfg, prefix + Repeat(k, Cycle(FrFcfs))), v, k, c.kind)
  {
    hide Streaming, Progress, RunFrom, Repeat, HitGap, Shape;
    var r := Exec(cfg, prefix);
    StreamingHolds(cfg, r.ch, v, c);
    var d := StreamAlong(cfg, r, v, c, k);
    var r' := RunFrom(cfg, r, Repeat(k, Cycle(FrFcfs)));
    StreamingHolds(cfg, r'.ch, v, d);
    RunFromConcat(cfg, Run(Init(cfg), [], [], []), prefix, Repeat(k, Cycle(FrFcfs)));
    ServedEnough(cfg, r, r', d, k);
  }

  lemma ServedEnough(cfg: Config, r: Run, r': Run, d: Cmd, k: nat)
    requires Progress(cfg, r, r', d) >= k && r'.ch.clock < d.time + HitGap(cfg, d.kind)
    ensures (|r'.done| - |r.done| + 1) * HitGap(cfg, d.kind) > k
  {
    var served := |r'.done| - |r.done|;
    assert (served + 1) * HitGap(cfg, d.kind) == served * HitGap(cfg, d.kind) + HitGap(cfg, d.kind);
  }

  /** First-ready scheduling starves a request, while others keep arriving. If the next read of an open row, or the next
      write, may always go by the time that its bank could be precharged, then for every n there is a run after which a
      queued request stays queued, and in its slot, for n more cycles of the first-ready scheduler, although the channel
      serves a hit every HitGap cycles. */
  lemma FirstReadyStarves(cfg: Config, op: MemOp, n: nat) returns (prefix: seq<Event>, v: nat)
    requires cfg.Valid() && cfg.queueSize >= 2
    requires var kind := First0(op).kind; HitGap(cfg, kind) <= Hold(cfg.t, kind)
    ensures forall k: nat | k <= n ::
      StillQueued(cfg, Exec(cfg, prefix), Exec(cfg, prefix + Repeat(k, Cycle(FrFcfs))), v, k, First0(op).kind)
  {
    var d;
    prefix, v, d := FlowReached(cfg, n, op);
    hide Streaming, StillQueued, Exec, Repeat;
    forall k: nat | k <= n
      ensures StillQueued(cfg, Exec(cfg, prefix), Exec(cfg, prefix + Repeat(k, Cycle(FrFcfs))), v, k, First0(op).kind)
    {
      StreamStarves(cfg, prefix, v, d, k);
    }
  }
}
