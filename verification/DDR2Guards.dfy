/**
 The timing guards in both directions: in every run a command may be sent exactly if every
 command before it is as far back as the memory parts require.
 */
module DDR2Guards {
  import opened DDR2State
  import opened DDR2Trace

  // ---------- the last command of a kind ----------

  /** The commands that a bank, a rank or the channel sees. */
  datatype Scope = OfBank(rank: int, bank: int) | OfRank(rank: int) | OfChannel

  predicate In(s: Scope, c: Cmd) {
    match s
    case OfBank(rank, bank) => c.rank == rank && c.bank == bank
    case OfRank(rank) => c.rank == rank
    case OfChannel => true
  }

  /** When the last command of a kind was sent there; 0 if none was. */
  function LastTime(trace: seq<Cmd>, kind: Kind, s: Scope): nat {
    if trace == [] then 0
    else if trace[|trace| - 1].kind == kind && In(s, trace[|trace| - 1]) then trace[|trace| - 1].time
    else LastTime(trace[..|trace| - 1], kind, s)
  }

  /** The row of the last activate of a bank; -1 if there was none. */
  function LastRow(trace: seq<Cmd>, rank: int, bank: int): int {
    if trace == [] then -1
    else if trace[|trace| - 1].kind.Act? && In(OfBank(rank, bank), trace[|trace| - 1]) then trace[|trace| - 1].row
    else LastRow(trace[..|trace| - 1], rank, bank)
  }

  lemma {:induction false} LastTimeIs(trace: seq<Cmd>, kind: Kind, s: Scope) returns (k: int)
    requires forall i, j | 0 <= i < j < |trace| :: trace[i].time < trace[j].time
    ensures forall i | 0 <= i < |trace| && trace[i].kind == kind && In(s, trace[i]) :: trace[i].time <= LastTime(trace, kind, s)
    ensures -1 <= k < |trace|
    ensures if k == -1 then LastTime(trace, kind, s) == 0
            else trace[k].kind == kind && In(s, trace[k]) && trace[k].time == LastTime(trace, kind, s)
  {
    var n := |trace| - 1;
    if trace == [] {
      k := -1;
    } else if trace[n].kind == kind && In(s, trace[n]) {
      k := n;
    } else {
      k := LastTimeIs(trace[..n], kind, s);
      forall i | 0 <= i < |trace| && trace[i].kind == kind && In(s, trace[i]) ensures trace[i].time <= LastTime(trace, kind, s) {
        assert trace[..n][i] == trace[i];
      }
    }
  }

  // ---------- what the channel remembers ----------

  predicate BankExact(b: Bank, trace: seq<Cmd>, rank: int, bank: int) {
    && b.lastPre == LastTime(trace, Pre, OfBank(rank, bank)) && b.lastAct == LastTime(trace, Act, OfBank(rank, bank))
    && b.lastRd == LastTime(trace, Rd, OfBank(rank, bank)) && b.lastWr == LastTime(trace, Wr, OfBank(rank, bank))
    && b.openRow == LastRow(trace, rank, bank)
  }

  predicate RankExact(k: Rank, trace: seq<Cmd>, rank: int) {
    && k.lastPre == LastTime(trace, Pre, OfRank(rank)) && k.lastAct == LastTime(trace, Act, OfRank(rank))
    && k.lastRd == LastTime(trace, Rd, OfRank(rank)) && k.lastWr == LastTime(trace, Wr, OfRank(rank))
  }

  /** Banks, ranks and channel remember exactly the last command of each kind that they saw. */
  predicate Exact(cfg: Config, ch: Chan, trace: seq<Cmd>)
    requires Shape(cfg, ch)
  {
    && (forall r, b | 0 <= r < cfg.numRanks && 0 <= b < cfg.numBanks :: BankExact(BankAt(ch, r, b), trace, r, b))
    && (forall r | 0 <= r < cfg.numRanks :: RankExact(ch.ranks[r], trace, r))
    && ch.lastPre == LastTime(trace, Pre, OfChannel) && ch.lastAct == LastTime(trace, Act, OfChannel)
    && ch.lastRd == LastTime(trace, Rd, OfChannel) && ch.lastWr == LastTime(trace, Wr, OfChannel)
  }

  lemma BankCommandExact(b: Bank, trace: seq<Cmd>, rank: nat, bank: nat, c: Cmd)
    requires BankExact(b, trace, rank, bank)
    ensures BankExact(if c.rank == rank && c.bank == bank then BankAfter(b, c) else b, trace + [c], rank, bank)
  {
    assert (trace + [c])[..|trace + [c]| - 1] == trace;
  }

  lemma RankCommandExact(k: Rank, trace: seq<Cmd>, rank: nat, c: Cmd)
    requires RankExact(k, trace, rank) && c.bank < |k.banks|
    ensures RankExact(if c.rank == rank then RankAfter(k, c) else k, trace + [c], rank)
  {
    assert (trace + [c])[..|trace + [c]| - 1] == trace;
  }

  lemma ChannelCommandExact(ch: Chan, trace: seq<Cmd>, c: Cmd)
    requires c.rank < |ch.ranks| && c.bank < |ch.ranks[c.rank].banks|
    requires ch.lastPre == LastTime(trace, Pre, OfChannel) && ch.lastAct == LastTime(trace, Act, OfChannel)
    requires ch.lastRd == LastTime(trace, Rd, OfChannel) && ch.lastWr == LastTime(trace, Wr, OfChannel)
    ensures var ch', trace' := ChanAfter(ch, c), trace + [c];
      && ch'.ranks == ch.ranks[c.rank := RankAfter(ch.ranks[c.rank], c)]
      && ch'.lastPre == LastTime(trace', Pre, OfChannel) && ch'.lastAct == LastTime(trace', Act, OfChannel)
      && ch'.lastRd == LastTime(trace', Rd, OfChannel) && ch'.lastWr == LastTime(trace', Wr, OfChannel)
  {
    assert (trace + [c])[..|trace + [c]| - 1] == trace;
    hide RankAfter;
  }

  lemma RankAfterBanks(k: Rank, c: Cmd)
    requires c.bank < |k.banks|
    ensures RankAfter(k, c).banks == k.banks[c.bank := BankAfter(k.banks[c.bank], c)]
  {
  }

  lemma CommandExact(cfg: Config, ch: Chan, trace: seq<Cmd>, c: Cmd)
    requires Shape(cfg, ch) && InRange(cfg, c) && Exact(cfg, ch, trace)
    ensures Shape(cfg, ChanAfter(ch, c)) && Exact(cfg, ChanAfter(ch, c), trace + [c])
  {
    CommandKeepsShape(cfg, ch, c);
    hide BankExact, RankExact, LastTime, BankAfter, RankAfter, ChanAfter;
    var ch', trace' := ChanAfter(ch, c), trace + [c];
    ChannelCommandExact(ch, trace, c);
    RankAfterBanks(ch.ranks[c.rank], c);
    forall r, b | 0 <= r < cfg.numRanks && 0 <= b < cfg.numBanks ensures BankExact(BankAt(ch', r, b), trace', r, b) {
      assert BankExact(BankAt(ch, r, b), trace, r, b);
      BankCommandExact(BankAt(ch, r, b), trace, r, b, c);
    }
    forall r | 0 <= r < cfg.numRanks ensures RankExact(ch'.ranks[r], trace', r) { RankCommandExact(ch.ranks[r], trace, r, c); }
  }

  lemma CommandKeepsShape(cfg: Config, ch: Chan, c: Cmd)
    requires Shape(cfg, ch) && InRange(cfg, c)
    ensures Shape(cfg, ChanAfter(ch, c))
  {
  }

  /** The queue, the clock and the power states are nothing to this. */
  lemma ExactSame(cfg: Config, ch: Chan, ch': Chan, trace: seq<Cmd>)
    requires Shape(cfg, ch) && Shape(cfg, ch') && Exact(cfg, ch, trace)
    requires ch'.lastPre == ch.lastPre && ch'.lastAct == ch.lastAct && ch'.lastRd == ch.lastRd && ch'.lastWr == ch.lastWr
    requires forall r | 0 <= r < cfg.numRanks ::
      && ch'.ranks[r].banks == ch.ranks[r].banks && ch'.ranks[r].lastPre == ch.ranks[r].lastPre
      && ch'.ranks[r].lastAct == ch.ranks[r].lastAct
      && ch'.ranks[r].lastRd == ch.ranks[r].lastRd && ch'.ranks[r].lastWr == ch.ranks[r].lastWr
    ensures Exact(cfg, ch', trace)
  {
    forall r, b | 0 <= r < cfg.numRanks && 0 <= b < cfg.numBanks ensures BankExact(BankAt(ch', r, b), trace, r, b) {
      assert ch'.ranks[r].banks == ch.ranks[r].banks;
      assert BankExact(BankAt(ch, r, b), trace, r, b);
    }
    forall r | 0 <= r < cfg.numRanks ensures RankExact(ch'.ranks[r], trace, r) { assert RankExact(ch.ranks[r], trace, r); }
  }

  lemma ExactStep(cfg: Config, r: Run, e: Event)
    requires Shape(cfg, r.ch) && Exact(cfg, r.ch, r.trace)
    ensures Exact(cfg, Step(cfg, r, e).ch, Step(cfg, r, e).trace)
  {
    hide Exact;
    if e.Arrival? {
      ExactSame(cfg, r.ch, Step(cfg, r, e).ch, r.trace);
    } else {
      var ch1 := Prepare(cfg, r.ch);
      EnqueueAllKeeps(cfg, Advance(cfg, r.ch));
      ExactSame(cfg, r.ch, ch1, r.trace);
      var i := Decide(cfg, e.p, ch1);
      if i.Some? {
        var c := CmdFor(cfg, ch1, i.value);
        CommandExact(cfg, ch1, r.trace, c);
        ExactSame(cfg, ChanAfter(ch1, c), Issue(cfg, ch1, i.value).ch, r.trace + [c]);
      }
    }
  }

  lemma {:induction false} ExactRun(cfg: Config, events: seq<Event>)
    requires cfg.Valid()
    ensures Exact(cfg, Exec(cfg, events).ch, Exec(cfg, events).trace)
  {
    if events != [] {
      ExactRun(cfg, events[..|events| - 1]);
      ExactStep(cfg, Exec(cfg, events[..|events| - 1]), events[|events| - 1]);
    }
  }

  // ---------- the exact guards ----------

  /** The distance that the controller keeps. With several ranks, the output switching between writes is waited for
      even where it is not needed, between writes of one rank. */
  function Gap(cfg: Config, a: Cmd, c: Cmd): int {
    if a.kind.Wr? && c.kind.Wr? && 1 < cfg.numRanks then Max(MinGap(cfg.t, a, c), cfg.t.tOST + cfg.t.Burst())
    else MinGap(cfg.t, a, c)
  }

  /** Every command before c is far enough back; and so is the start of time, as if every bank had seen every command. */
  predicate FarEnough(cfg: Config, trace: seq<Cmd>, c: Cmd) {
    && (forall i | 0 <= i < |trace| :: c.time - trace[i].time >= Gap(cfg, trace[i], c))
    && (forall kind: Kind, rank: nat, bank: nat | rank < cfg.numRanks && bank < cfg.numBanks ::
          c.time >= Gap(cfg, Cmd(kind, rank, bank, 0, 0), c))
  }

  /** If every command of a kind there has to be g cycles back, and is, so is the last one; v is one at the start. */
  lemma LastIsFar(cfg: Config, trace: seq<Cmd>, c: Cmd, s: Scope, v: Cmd, g: int)
    requires forall i, j | 0 <= i < j < |trace| :: trace[i].time < trace[j].time
    requires FarEnough(cfg, trace, c) && InRange(cfg, v) && v.time == 0 && v.row == 0 && Gap(cfg, v, c) >= g
    requires forall i | 0 <= i < |trace| && trace[i].kind == v.kind && In(s, trace[i]) :: Gap(cfg, trace[i], c) >= g
    ensures c.time - LastTime(trace, v.kind, s) >= g
  {
    var k := LastTimeIs(trace, v.kind, s);
    assert v == Cmd(v.kind, v.rank, v.bank, 0, 0);
  }

  lemma FarPre(cfg: Config, ch: Chan, trace: seq<Cmd>, c: Cmd)
    requires Shape(cfg, ch) && Exact(cfg, ch, trace) && InRange(cfg, c)
    requires forall i, j | 0 <= i < j < |trace| :: trace[i].time < trace[j].time
    requires FarEnough(cfg, trace, c) && c.kind.Pre?
    ensures CanIssue(cfg.t, ch, c)
  {
    hide FarEnough, Exact, LastTime;
    var t, here := cfg.t, OfBank(c.rank, c.bank);
    ExactBank(cfg, ch, trace, c.rank, c.bank);
    LastIsFar(cfg, trace, c, here, Cmd(Wr, c.rank, c.bank, 0, 0), t.tWR + t.tWL + t.Burst());
    LastIsFar(cfg, trace, c, here, Cmd(Rd, c.rank, c.bank, 0, 0), t.tRTP);
    LastIsFar(cfg, trace, c, here, Cmd(Act, c.rank, c.bank, 0, 0), t.tRAS);
  }

  lemma FarAct(cfg: Config, ch: Chan, trace: seq<Cmd>, c: Cmd)
    requires Shape(cfg, ch) && Exact(cfg, ch, trace) && InRange(cfg, c)
    requires forall i, j | 0 <= i < j < |trace| :: trace[i].time < trace[j].time
    requires FarEnough(cfg, trace, c) && c.kind.Act? && c.time >= cfg.t.tRFC
    ensures CanIssue(cfg.t, ch, c)
  {
    hide FarEnough, Exact, LastTime;
    var t, here := cfg.t, OfBank(c.rank, c.bank);
    ExactBank(cfg, ch, trace, c.rank, c.bank);
    LastIsFar(cfg, trace, c, here, Cmd(Pre, c.rank, c.bank, 0, 0), t.tRP);
    LastIsFar(cfg, trace, c, here, Cmd(Act, c.rank, c.bank, 0, 0), t.tRC);
    var rk := ch.ranks[c.rank];
    forall i: nat | i < |rk.banks| && i != c.bank ensures c.time - rk.banks[i].lastAct >= t.tRRD {
      ExactBank(cfg, ch, trace, c.rank, i);
      LastIsFar(cfg, trace, c, OfBank(c.rank, i), Cmd(Act, c.rank, i, 0, 0), t.tRRD);
    }
  }

  lemma FarRd(cfg: Config, ch: Chan, trace: seq<Cmd>, c: Cmd)
    requires Shape(cfg, ch) && Exact(cfg, ch, trace) && InRange(cfg, c)
    requires forall i, j | 0 <= i < j < |trace| :: trace[i].time < trace[j].time
    requires FarEnough(cfg, trace, c) && c.kind.Rd? && LastRow(trace, c.rank, c.bank) == c.row
    ensures CanIssue(cfg.t, ch, c)
  {
    hide FarEnough, Exact, LastTime;
    var t, here := cfg.t, OfBank(c.rank, c.bank);
    ExactBank(cfg, ch, trace, c.rank, c.bank);
    ExactRank(cfg, ch, trace, c.rank);
    LastIsFar(cfg, trace, c, here, Cmd(Act, c.rank, c.bank, 0, 0), t.tRCD);
    LastIsFar(cfg, trace, c, OfRank(c.rank), Cmd(Rd, c.rank, c.bank, 0, 0), t.tCCD);
    LastIsFar(cfg, trace, c, OfRank(c.rank), Cmd(Wr, c.rank, c.bank, 0, 0), Max(t.tCCD, t.tWTR + t.tWL + t.Burst()));
    forall i: nat | i < |ch.ranks| && i != c.rank
      ensures c.time - ch.ranks[i].lastRd >= t.tRTRS + t.Burst()
      ensures c.time - ch.ranks[i].lastWr + t.tCL >= t.tRTRS + t.tWL + t.Burst()
    {
      ExactRank(cfg, ch, trace, i);
      LastIsFar(cfg, trace, c, OfRank(i), Cmd(Rd, i, c.bank, 0, 0), t.tRTRS + t.Burst());
      LastIsFar(cfg, trace, c, OfRank(i), Cmd(Wr, i, c.bank, 0, 0), t.tRTRS + t.tWL + t.Burst() - t.tCL);
    }
  }

  lemma FarWr(cfg: Config, ch: Chan, trace: seq<Cmd>, c: Cmd)
    requires Shape(cfg, ch) && Exact(cfg, ch, trace) && InRange(cfg, c)
    requires forall i, j | 0 <= i < j < |trace| :: trace[i].time < trace[j].time
    requires FarEnough(cfg, trace, c) && c.kind.Wr? && LastRow(trace, c.rank, c.bank) == c.row
    ensures CanIssue(cfg.t, ch, c)
  {
    hide FarEnough, Exact, LastTime;
    var t, here := cfg.t, OfBank(c.rank, c.bank);
    ExactBank(cfg, ch, trace, c.rank, c.bank);
    ExactRank(cfg, ch, trace, c.rank);
    ExactChannel(cfg, ch, trace);
    LastIsFar(cfg, trace, c, here, Cmd(Act, c.rank, c.bank, 0, 0), t.tRCD);
    LastIsFar(cfg, trace, c, OfRank(c.rank), Cmd(Rd, c.rank, c.bank, 0, 0), t.tCCD);
    LastIsFar(cfg, trace, c, OfRank(c.rank), Cmd(Wr, c.rank, c.bank, 0, 0), t.tCCD);
    LastIsFar(cfg, trace, c, OfChannel, Cmd(Rd, c.rank, c.bank, 0, 0), t.tRTRS + t.tCL + t.Burst() - t.tWL);
    if 1 < cfg.numRanks { LastIsFar(cfg, trace, c, OfChannel, Cmd(Wr, c.rank, c.bank, 0, 0), t.tOST + t.Burst()); }
  }

  lemma FarMeansCan(cfg: Config, ch: Chan, trace: seq<Cmd>, c: Cmd)
    requires Shape(cfg, ch) && Exact(cfg, ch, trace) && InRange(cfg, c)
    requires forall i, j | 0 <= i < j < |trace| :: trace[i].time < trace[j].time
    requires FarEnough(cfg, trace, c) && (c.kind.Act? ==> c.time >= cfg.t.tRFC)
    requires c.kind.Cas() ==> LastRow(trace, c.rank, c.bank) == c.row
    ensures CanIssue(cfg.t, ch, c)
  {
    hide FarEnough, Exact, CanIssue;
    match c.kind {
      case Pre => FarPre(cfg, ch, trace, c);
      case Act => FarAct(cfg, ch, trace, c);
      case Rd => FarRd(cfg, ch, trace, c);
      case Wr => FarWr(cfg, ch, trace, c);
    }
  }

  lemma ExactBank(cfg: Config, ch: Chan, trace: seq<Cmd>, r: nat, b: nat)
    requires Shape(cfg, ch) && Exact(cfg, ch, trace) && r < cfg.numRanks && b < cfg.numBanks
    ensures BankExact(BankAt(ch, r, b), trace, r, b)
  {
  }

  lemma ExactRank(cfg: Config, ch: Chan, trace: seq<Cmd>, r: nat)
    requires Shape(cfg, ch) && Exact(cfg, ch, trace) && r < cfg.numRanks
    ensures RankExact(ch.ranks[r], trace, r)
  {
  }

  lemma ExactChannel(cfg: Config, ch: Chan, trace: seq<Cmd>)
    requires Shape(cfg, ch) && Exact(cfg, ch, trace)
    ensures ch.lastRd == LastTime(trace, Rd, OfChannel) && ch.lastWr == LastTime(trace, Wr, OfChannel)
  {
  }

  lemma CanMeansFar(cfg: Config, ch: Chan, a: Cmd, c: Cmd)
    requires Shape(cfg, ch) && InRange(cfg, c) && CanIssue(cfg.t, ch, c)
    requires InRange(cfg, a) && Covers(cfg, ch.(clock := c.time), a)
    ensures c.time - a.time >= Gap(cfg, a, c)
  {
    GuardSpaces(cfg, ch.(clock := c.time), a, c);
  }

  /** In every run and for any moment from now on: the guards let a command pass exactly if every command before it is
      far enough back, an activate comes after tRFC, and a read or write is for the row last activated. */
  lemma GuardsExactly(cfg: Config, events: seq<Event>, c: Cmd)
    requires cfg.Valid() && InRange(cfg, c) && c.time >= Exec(cfg, events).ch.clock
    ensures var r := Exec(cfg, events);
      CanIssue(cfg.t, r.ch, c) <==>
        && FarEnough(cfg, r.trace, c)
        && (c.kind.Act? ==> c.time >= cfg.t.tRFC)
        && (c.kind.Cas() ==> LastRow(r.trace, c.rank, c.bank) == c.row)
  {
    var r := Exec(cfg, events);
    ExactRun(cfg, events);
    TimedRun(cfg, events);
    ExactBank(cfg, r.ch, r.trace, c.rank, c.bank);
    if CanIssue(cfg.t, r.ch, c) {
      forall i | 0 <= i < |r.trace| ensures c.time - r.trace[i].time >= Gap(cfg, r.trace[i], c) {
        assert InRange(cfg, r.trace[i]) && Covers(cfg, r.ch, r.trace[i]);
        CanMeansFar(cfg, r.ch, r.trace[i], c);
      }
      forall kind: Kind, rank: nat, bank: nat | rank < cfg.numRanks && bank < cfg.numBanks
        ensures c.time >= Gap(cfg, Cmd(kind, rank, bank, 0, 0), c)
      {
        CanMeansFar(cfg, r.ch, Cmd(kind, rank, bank, 0, 0), c);
      }
    }
    hide Exec, Exact, FarEnough, CanIssue;
    if FarEnough(cfg, r.trace, c) && (c.kind.Act? ==> c.time >= cfg.t.tRFC)
       && (c.kind.Cas() ==> LastRow(r.trace, c.rank, c.bank) == c.row)
    {
      FarMeansCan(cfg, r.ch, r.trace, c);
    }
  }

  /** No activate of a run comes before tRFC. */
  lemma NoActivateBefore(cfg: Config, events: seq<Event>, k: nat)
    requires cfg.Valid() && k < |Exec(cfg, events).trace| && Exec(cfg, events).trace[k].kind.Act?
    ensures Exec(cfg, events).trace[k].time >= cfg.t.tRFC
  {
    ActivatesLate(cfg, events);
  }

  lemma {:induction false} ActivatesLate(cfg: Config, events: seq<Event>)
    requires cfg.Valid()
    ensures forall k | 0 <= k < |Exec(cfg, events).trace| && Exec(cfg, events).trace[k].kind.Act? ::
      Exec(cfg, events).trace[k].time >= cfg.t.tRFC
  {
    if events != [] {
      var r, e := Exec(cfg, events[..|events| - 1]), events[|events| - 1];
      ActivatesLate(cfg, events[..|events| - 1]);
      if e.Cycle? { var i := Decide(cfg, e.p, Prepare(cfg, r.ch)); }
    }
  }
}
