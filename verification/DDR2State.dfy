/**
 The state of one DDR2 channel and what one DRAM cycle does to it: the timing
 guards, the four commands, the scheduling queue and the two schedulers.

 Times are unbounded integers: a guard such as "now - (last - tWL) < d", which the
 controller evaluates modulo 2^64, is written here as "now - last + tWL < d".
 */
module DDR2State {
  import opened Options

  /** The timing parameters of the memory parts, in DRAM cycles. */
  datatype Timing = Timing(
    tRCD: nat,   // activate to read or write
    tCL: nat,    // read to data on the bus
    tWL: nat,    // write to data on the bus
    tCCD: nat,   // read or write to read or write
    tWTR: nat,   // end of write data to read
    tWR: nat,    // end of write data to precharge
    tRTP: nat,   // read to precharge
    tRP: nat,    // precharge to activate
    tRRD: nat,   // activate to activate, another bank of the rank
    tRAS: nat,   // activate to precharge
    tRC: nat,    // activate to activate, same bank
    tRTRS: nat,  // switching the bus between ranks
    tOST: nat,   // output switching
    tRFC: nat,   // refresh to activate
    BL: nat      // burst length, two beats a cycle
  ) {
    /** Cycles one burst keeps the data bus. */
    function Burst(): (b: nat)
      ensures 2 * b <= BL < 2 * b + 2
    {
      BL / 2
    }
  }

  /** A channel's fixed shape. The units are the powers of two that the controller shifts by. */
  datatype Config = Config(t: Timing, numRanks: nat, numBanks: nat, queueSize: nat,
                           rankUnit: nat, bankUnit: nat, rowUnit: nat)
  {
    predicate Valid() {
      && 0 < numRanks && 0 < numBanks && 0 < queueSize
      && 0 < rankUnit && 0 < bankUnit && 0 < rowUnit
    }
  }

  datatype MemOp = MemRead | MemReadW | MemWrite | MemPush

  /** Each request is an object of its own: two for the same address and operation differ in their numbers. */
  datatype Request = Request(id: nat, pAddr: nat, op: MemOp) {
    predicate IsRead() { op != MemWrite && op != MemPush }
  }

  datatype Location = Location(rank: nat, bank: nat, row: nat)

  /** Page-interleaved mapping: row | bank | rank | channel | page offset. */
  function Decode(cfg: Config, pAddr: nat): (l: Location)
    requires cfg.Valid()
    ensures l.rank < cfg.numRanks && l.bank < cfg.numBanks
  {
    Location((pAddr / cfg.rankUnit) % cfg.numRanks, (pAddr / cfg.bankUnit) % cfg.numBanks, pAddr / cfg.rowUnit)
  }

  // ---------- banks, ranks, commands ----------

  datatype Bank = Bank(active: bool, openRow: int, lastPre: nat, lastAct: nat, lastRd: nat, lastWr: nat)

  datatype Power = IDD2P0 | IDD2P1 | IDD3P | IDD2N | IDD3N

  datatype Rank = Rank(banks: seq<Bank>, lastPre: nat, lastAct: nat, lastRd: nat, lastWr: nat,
                       numActive: int, cke: bool, fastExit: bool, power: Power)

  datatype Kind = Pre | Act | Rd | Wr {
    predicate Cas() { Rd? || Wr? }
  }

  datatype Cmd = Cmd(kind: Kind, rank: nat, bank: nat, row: int, time: nat) {
    predicate SameBank(o: Cmd) { rank == o.rank && bank == o.bank }
  }

  /** A queue entry. Rank, bank and row are -1 while the entry is free. */
  datatype MemRef = MemRef(valid: bool, request: Option<Request>, rank: int, bank: int, row: int,
                           prePending: bool, actPending: bool, rdPending: bool, wrPending: bool,
                           isRead: bool, ts: nat)

  datatype Chan = Chan(clock: nat, ranks: seq<Rank>, q: seq<MemRef>, free: seq<nat>, arrivals: seq<Request>,
                       occupancy: int, lastPre: nat, lastAct: nat, lastRd: nat, lastWr: nat)

  // ---------- guards ----------

  predicate RankCanPre(t: Timing, rk: Rank, bank: nat, now: nat)
    requires bank < |rk.banks|
  {
    var b := rk.banks[bank];
    && now - b.lastWr >= t.tWR + t.tWL + t.Burst()
    && now - b.lastRd >= t.tRTP
    && now - b.lastAct >= t.tRAS
  }

  predicate RankCanAct(t: Timing, rk: Rank, bank: nat, now: nat)
    requires bank < |rk.banks|
  {
    && now >= t.tRFC
    && now - rk.banks[bank].lastPre >= t.tRP
    && (forall i | 0 <= i < |rk.banks| && i != bank :: now - rk.banks[i].lastAct >= t.tRRD)
    && now - rk.banks[bank].lastAct >= t.tRC
  }

  predicate RankCanRd(t: Timing, rk: Rank, bank: nat, row: int, now: nat)
    requires bank < |rk.banks|
  {
    && rk.banks[bank].openRow == row
    && now - rk.banks[bank].lastAct >= t.tRCD
    && now - rk.lastRd >= t.tCCD && now - rk.lastWr >= t.tCCD
    && now - rk.lastWr >= t.tWTR + t.tWL + t.Burst()
  }

  predicate RankCanWr(t: Timing, rk: Rank, bank: nat, row: int, now: nat)
    requires bank < |rk.banks|
  {
    && rk.banks[bank].openRow == row
    && now - rk.banks[bank].lastAct >= t.tRCD
    && now - rk.lastRd >= t.tCCD && now - rk.lastWr >= t.tCCD
  }

  predicate CanRd(t: Timing, ch: Chan, rank: nat, bank: nat, row: int, now: nat)
    requires rank < |ch.ranks| && bank < |ch.ranks[rank].banks|
  {
    && RankCanRd(t, ch.ranks[rank], bank, row, now)
    && forall i | 0 <= i < |ch.ranks| && i != rank ::
         && now - ch.ranks[i].lastRd >= t.tRTRS + t.Burst()
         && now - ch.ranks[i].lastWr + t.tCL >= t.tRTRS + t.tWL + t.Burst()
  }

  predicate CanWr(t: Timing, ch: Chan, rank: nat, bank: nat, row: int, now: nat)
    requires rank < |ch.ranks| && bank < |ch.ranks[rank].banks|
  {
    && RankCanWr(t, ch.ranks[rank], bank, row, now)
    && now - ch.lastRd + t.tWL >= t.tRTRS + t.tCL + t.Burst()
    && (1 < |ch.ranks| ==> now - ch.lastWr >= t.tOST + t.Burst())
  }

  predicate CanIssue(t: Timing, ch: Chan, c: Cmd)
    requires c.rank < |ch.ranks| && c.bank < |ch.ranks[c.rank].banks|
  {
    match c.kind
    case Pre => RankCanPre(t, ch.ranks[c.rank], c.bank, c.time)
    case Act => RankCanAct(t, ch.ranks[c.rank], c.bank, c.time)
    case Rd => CanRd(t, ch, c.rank, c.bank, c.row, c.time)
    case Wr => CanWr(t, ch, c.rank, c.bank, c.row, c.time)
  }

  // ---------- commands ----------

  function BankAfter(b: Bank, c: Cmd): Bank {
    match c.kind
    case Pre => b.(active := false, lastPre := c.time)
    case Act => b.(active := true, openRow := c.row, lastAct := c.time)
    case Rd => b.(lastRd := c.time)
    case Wr => b.(lastWr := c.time)
  }

  function RankAfter(rk: Rank, c: Cmd): Rank
    requires c.bank < |rk.banks|
  {
    var rk' := rk.(banks := rk.banks[c.bank := BankAfter(rk.banks[c.bank], c)]);
    match c.kind
    case Pre => rk'.(numActive := rk.numActive - 1, lastPre := c.time)
    case Act => rk'.(numActive := rk.numActive + 1, lastAct := c.time)
    case Rd => rk'.(lastRd := c.time)
    case Wr => rk'.(lastWr := c.time)
  }

  /** The banks, ranks and channel times after a command; the queue is not touched. */
  function ChanAfter(ch: Chan, c: Cmd): Chan
    requires c.rank < |ch.ranks| && c.bank < |ch.ranks[c.rank].banks|
  {
    var ch' := ch.(ranks := ch.ranks[c.rank := RankAfter(ch.ranks[c.rank], c)]);
    match c.kind
    case Pre => ch'.(lastPre := c.time)
    case Act => ch'.(lastAct := c.time)
    case Rd => ch'.(lastRd := c.time)
    case Wr => ch'.(lastWr := c.time)
  }

  // ---------- power state ----------

  function PowerOf(cke: bool, fastExit: bool, allPrecharged: bool): Power {
    if !cke then
      if allPrecharged then (if fastExit then IDD2P1 else IDD2P0) else IDD3P
    else
      if allPrecharged then IDD2N else IDD3N
  }

  /** The power state as the controller finds it: from the counter of active banks. */
  function UpdatePower(rk: Rank): Rank {
    rk.(power := PowerOf(rk.cke, rk.fastExit, rk.numActive == 0))
  }

  // ---------- the scheduling queue ----------

  const FREE_REF := MemRef(false, None, -1, -1, -1, true, true, true, true, true, 0)

  /** Completing a reference resets everything but its time stamp. */
  function Complete(m: MemRef): MemRef {
    FREE_REF.(ts := m.ts)
  }

  predicate RefInRange(cfg: Config, m: MemRef) {
    0 <= m.rank < cfg.numRanks && 0 <= m.bank < cfg.numBanks
  }

  /** The shape the constructor gives a channel and every step keeps. */
  predicate Shape(cfg: Config, ch: Chan) {
    && cfg.Valid()
    && |ch.ranks| == cfg.numRanks
    && (forall r | 0 <= r < cfg.numRanks :: |ch.ranks[r].banks| == cfg.numBanks)
    && |ch.q| == cfg.queueSize
    && (forall i | 0 <= i < |ch.q| :: ch.q[i].valid ==> RefInRange(cfg, ch.q[i]) && ch.q[i].request.Some?)
    && (forall k | 0 <= k < |ch.free| :: ch.free[k] < cfg.queueSize)
  }

  function BankAt(ch: Chan, rank: int, bank: int): Bank
    requires 0 <= rank < |ch.ranks| && 0 <= bank < |ch.ranks[rank].banks|
  {
    ch.ranks[rank].banks[bank]
  }

  /** The pending flags that bank state and open row call for. */
  function Flagged(m: MemRef, b: Bank): MemRef {
    m.(prePending := b.active && m.row != b.openRow, actPending := !b.active || m.row != b.openRow)
  }

  function Refreshed(cfg: Config, ch: Chan, m: MemRef): MemRef
    requires Shape(cfg, ch) && (m.valid ==> RefInRange(cfg, m))
  {
    if m.valid then Flagged(m, BankAt(ch, m.rank, m.bank)) else m
  }

  /** Recompute the pending flags of every valid reference after a precharge or an activate. */
  function UpdateQueue(cfg: Config, ch: Chan): Chan
    requires Shape(cfg, ch)
  {
    ch.(q := seq(|ch.q|, i requires 0 <= i < |ch.q| => Refreshed(cfg, ch, ch.q[i])))
  }

  function NewRef(cfg: Config, ch: Chan, r: Request): MemRef
    requires Shape(cfg, ch)
  {
    var l := Decode(cfg, r.pAddr);
    Flagged(MemRef(true, Some(r), l.rank, l.bank, l.row, false, false, r.IsRead(), !r.IsRead(), r.IsRead(), ch.clock),
            BankAt(ch, l.rank, l.bank))
  }

  /** The oldest waiting request takes the slot at the head of the free list. */
  function Enqueue(cfg: Config, ch: Chan): (ch': Chan)
    requires Shape(cfg, ch) && ch.free != [] && ch.arrivals != []
    ensures Shape(cfg, ch')
  {
    ch.(q := ch.q[ch.free[0] := NewRef(cfg, ch, ch.arrivals[0])], free := ch.free[1..],
        arrivals := ch.arrivals[1..], occupancy := ch.occupancy + 1)
  }

  function EnqueueAll(cfg: Config, ch: Chan): (ch': Chan)
    requires Shape(cfg, ch)
    ensures Shape(cfg, ch')
    decreases |ch.arrivals|
  {
    if ch.free == [] || ch.arrivals == [] then ch else EnqueueAll(cfg, Enqueue(cfg, ch))
  }

  // ---------- what a reference needs next ----------

  function Needs(m: MemRef): Option<Kind> {
    if m.prePending then Some(Pre)
    else if m.actPending then Some(Act)
    else if m.rdPending then Some(Rd)
    else if m.wrPending then Some(Wr)
    else None
  }

  function CmdFor(cfg: Config, ch: Chan, i: nat): (c: Cmd)
    requires Shape(cfg, ch) && i < |ch.q| && ch.q[i].valid && Needs(ch.q[i]).Some?
    ensures c.rank < cfg.numRanks && c.bank < cfg.numBanks
  {
    var m := ch.q[i];
    Cmd(Needs(m).value, m.rank, m.bank, m.row, ch.clock)
  }

  /** Reference i is valid and the command it needs next passes the timing guards now. */
  predicate Ready(cfg: Config, ch: Chan, i: nat)
    requires Shape(cfg, ch)
  {
    && i < |ch.q| && ch.q[i].valid && Needs(ch.q[i]).Some?
    && CanIssue(cfg.t, ch, CmdFor(cfg, ch, i))
  }

  /** What one scheduling decision did: the channel after it, the command sent, the reference completed. */
  datatype Outcome = Outcome(ch: Chan, cmd: Option<Cmd>, done: Option<MemRef>)

  /** Send the command reference i needs. */
  function Issue(cfg: Config, ch: Chan, i: nat): (o: Outcome)
    requires Shape(cfg, ch) && i < |ch.q| && ch.q[i].valid && Needs(ch.q[i]).Some?
    ensures Shape(cfg, o.ch)
  {
    var c := CmdFor(cfg, ch, i);
    var ch1 := ChanAfter(ch, c);
    if c.kind.Cas() then
      Outcome(ch1.(q := ch.q[i := Complete(ch.q[i])], free := ch.free + [i], occupancy := ch.occupancy - 1),
              Some(c), Some(ch.q[i]))
    else
      Outcome(UpdateQueue(cfg, ch1), Some(c), None)
  }

  // ---------- choosing a reference ----------

  /** Among the first n entries marked eligible and stamped before the bound, the one a left-to-right
      scan for a strictly smaller time stamp ends with. */
  function Pick(q: seq<MemRef>, eligible: seq<bool>, bound: nat, n: nat): (p: Option<nat>)
    requires n <= |q| == |eligible|
    ensures p.Some? ==> p.value < n && eligible[p.value] && q[p.value].ts < bound
  {
    if n == 0 then None
    else
      var p := Pick(q, eligible, bound, n - 1);
      if eligible[n - 1] && q[n - 1].ts < (if p.Some? then q[p.value].ts else bound) then Some(n - 1) else p
  }

  /** An older entry, or one of the same age in a lower slot. */
  predicate Before(q: seq<MemRef>, i: nat, j: nat)
    requires i < |q| && j < |q|
  {
    q[i].ts < q[j].ts || (q[i].ts == q[j].ts && i < j)
  }

  /** The scan finds exactly the first eligible entry in (age, slot) order. */
  lemma {:induction false} PickIsFirst(q: seq<MemRef>, eligible: seq<bool>, bound: nat, n: nat)
    requires n <= |q| == |eligible|
    ensures var p := Pick(q, eligible, bound, n);
      && (p.None? <==> forall i | 0 <= i < n :: eligible[i] ==> q[i].ts >= bound)
      && (forall i | 0 <= i < n :: p.Some? && eligible[i] && i != p.value ==> Before(q, p.value, i))
  {
    if n > 0 { PickIsFirst(q, eligible, bound, n - 1); }
  }

  function ValidOnes(ch: Chan): seq<bool> {
    seq(|ch.q|, i requires 0 <= i < |ch.q| => ch.q[i].valid)
  }

  function ReadyOnes(cfg: Config, ch: Chan, cas: bool): seq<bool>
    requires Shape(cfg, ch)
  {
    seq(|ch.q|, i requires 0 <= i < |ch.q| => Ready(cfg, ch, i) && Needs(ch.q[i]).value.Cas() == cas)
  }

  function Oldest(ch: Chan): Option<nat> {
    Pick(ch.q, ValidOnes(ch), ch.clock, |ch.q|)
  }

  /** First come, first served: only the oldest reference may send a command. */
  function ScheduleFcfs(cfg: Config, ch: Chan): (o: Outcome)
    requires Shape(cfg, ch)
    ensures Shape(cfg, o.ch)
  {
    match Oldest(ch)
    case None => Outcome(ch, None, None)
    case Some(i) => if Ready(cfg, ch, i) then Issue(cfg, ch, i) else Outcome(ch, None, None)
  }

  /** First ready: the oldest ready read or write, and only without one the oldest ready precharge or activate. */
  function FrChoice(cfg: Config, ch: Chan): Option<nat>
    requires Shape(cfg, ch)
  {
    var cas := Pick(ch.q, ReadyOnes(cfg, ch, true), ch.clock, |ch.q|);
    if cas.Some? then cas else Pick(ch.q, ReadyOnes(cfg, ch, false), ch.clock, |ch.q|)
  }

  function ScheduleFrFcfs(cfg: Config, ch: Chan): (o: Outcome)
    requires Shape(cfg, ch)
    ensures Shape(cfg, o.ch)
  {
    if |ch.free| == cfg.queueSize then Outcome(ch, None, None)
    else match FrChoice(cfg, ch)
      case None => Outcome(ch, None, None)
      case Some(i) => Issue(cfg, ch, i)
  }

  // ---------- one DRAM cycle ----------

  datatype Policy = Fcfs | FrFcfs

  function Schedule(cfg: Config, p: Policy, ch: Chan): (o: Outcome)
    requires Shape(cfg, ch)
    ensures Shape(cfg, o.ch)
  {
    if p.Fcfs? then ScheduleFcfs(cfg, ch) else ScheduleFrFcfs(cfg, ch)
  }

  /** The clock moves on and every rank updates its power state. */
  function Advance(cfg: Config, ch: Chan): (ch': Chan)
    requires Shape(cfg, ch)
    ensures Shape(cfg, ch')
  {
    ch.(clock := ch.clock + 1,
        ranks := seq(|ch.ranks|, r requires 0 <= r < |ch.ranks| => UpdatePower(ch.ranks[r])))
  }

  function Prepare(cfg: Config, ch: Chan): (ch': Chan)
    requires Shape(cfg, ch)
    ensures Shape(cfg, ch')
  {
    EnqueueAll(cfg, Advance(cfg, ch))
  }

  function Tick(cfg: Config, p: Policy, ch: Chan): (o: Outcome)
    requires Shape(cfg, ch)
    ensures Shape(cfg, o.ch)
  {
    Schedule(cfg, p, Prepare(cfg, ch))
  }

  function Arrive(ch: Chan, r: Request): Chan {
    ch.(arrivals := ch.arrivals + [r])
  }

  // ---------- the start ----------

  const NEW_BANK := Bank(false, -1, 0, 0, 0, 0)

  function NewRank(cfg: Config): Rank {
    Rank(seq(cfg.numBanks, i => NEW_BANK), 0, 0, 0, 0, 0, true, false, IDD2N)
  }

  function Init(cfg: Config): (ch: Chan)
    requires cfg.Valid()
    ensures Shape(cfg, ch)
  {
    Chan(0, seq(cfg.numRanks, i => NewRank(cfg)), seq(cfg.queueSize, i => FREE_REF),
         seq(cfg.queueSize, i requires 0 <= i => i), [], 0, 0, 0, 0, 0)
  }
}
