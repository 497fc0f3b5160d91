/**
 Row safety of a DDR2 channel: no guard tests the bank state, so the cached pending
 flags alone keep a read or write from a closed or wrong row, an activate from an
 open bank, and a precharge from a closed one. Also: the counter of active banks
 always answers as the scan over the banks that it replaced.
 */
module DDR2Rows {
  import opened Options
  import opened DDR2State
  import opened DDR2Trace

  /** The row that the commands so far leave open in a bank, worked out from the commands alone. */
  function OpenRow(trace: seq<Cmd>, rank: int, bank: int): Option<int> {
    if trace == [] then None
    else
      var c := trace[|trace| - 1];
      if c.rank == rank && c.bank == bank && c.kind.Act? then Some(c.row)
      else if c.rank == rank && c.bank == bank && c.kind.Pre? then None
      else OpenRow(trace[..|trace| - 1], rank, bank)
  }

  /** A command is legal if the bank is in the state the memory part expects of it. */
  predicate LegalNext(before: seq<Cmd>, c: Cmd) {
    var open := OpenRow(before, c.rank, c.bank);
    match c.kind
    case Pre => open.Some?
    case Act => open.None?
    case Rd => open == Some(c.row)
    case Wr => open == Some(c.row)
  }

  predicate Legal(trace: seq<Cmd>) {
    forall j | 0 <= j < |trace| :: LegalNext(trace[..j], trace[j])
  }

  // ---------- flags ----------

  /** The flags of a valid reference: they say what bank state and open row call for, and exactly one of
      read and write is still to come. */
  predicate FlagsRight(m: MemRef, b: Bank) {
    && m.prePending == (b.active && m.row != b.openRow)
    && m.actPending == (!b.active || m.row != b.openRow)
    && m.rdPending == m.isRead && m.wrPending == !m.isRead
  }

  predicate Flags(cfg: Config, ch: Chan)
    requires Shape(cfg, ch)
  {
    forall i | 0 <= i < cfg.queueSize && ch.q[i].valid ::
      FlagsRight(ch.q[i], BankAt(ch, ch.q[i].rank, ch.q[i].bank))
  }

  // ---------- the counter of active banks ----------

  function CountActive(banks: seq<Bank>): nat {
    if banks == [] then 0
    else CountActive(banks[..|banks| - 1]) + (if banks[|banks| - 1].active then 1 else 0)
  }

  lemma {:induction false} CountActiveUpdate(banks: seq<Bank>, k: nat, b: Bank)
    requires k < |banks|
    ensures CountActive(banks[k := b]) == CountActive(banks)
              + (if b.active then 1 else 0) - (if banks[k].active then 1 else 0)
  {
    var n := |banks| - 1;
    if k < n {
      assert banks[k := b][..n] == banks[..n][k := b];
      CountActiveUpdate(banks[..n], k, b);
    } else {
      assert banks[k := b][..n] == banks[..n];
    }
  }

  lemma {:induction false} CountZeroMeansNone(banks: seq<Bank>)
    ensures CountActive(banks) == 0 <==> forall b | 0 <= b < |banks| :: !banks[b].active
  {
    if banks != [] { CountZeroMeansNone(banks[..|banks| - 1]); }
  }

  predicate Counted(cfg: Config, ch: Chan)
    requires Shape(cfg, ch)
  {
    forall r | 0 <= r < cfg.numRanks :: ch.ranks[r].numActive == CountActive(ch.ranks[r].banks)
  }

  // ---------- banks mirror the trace ----------

  predicate Mirrors(cfg: Config, ch: Chan, trace: seq<Cmd>)
    requires Shape(cfg, ch)
  {
    forall r, b | 0 <= r < cfg.numRanks && 0 <= b < cfg.numBanks ::
      OpenRow(trace, r, b) == if BankAt(ch, r, b).active then Some(BankAt(ch, r, b).openRow) else None
  }

  predicate Rowed(cfg: Config, r: Run) {
    Shape(cfg, r.ch) && Flags(cfg, r.ch) && Counted(cfg, r.ch) && Mirrors(cfg, r.ch, r.trace) && Legal(r.trace)
  }

  lemma {:induction false} EnqueueAllKeepsFlags(cfg: Config, ch: Chan)
    requires Shape(cfg, ch) && Flags(cfg, ch)
    ensures Flags(cfg, EnqueueAll(cfg, ch))
    decreases |ch.arrivals|
  {
    if ch.free != [] && ch.arrivals != [] { EnqueueAllKeepsFlags(cfg, Enqueue(cfg, ch)); }
  }

  lemma PrepareKeepsRows(cfg: Config, r: Run)
    requires Rowed(cfg, r)
    ensures Rowed(cfg, r.(ch := Prepare(cfg, r.ch)))
  {
    var ch1 := Advance(cfg, r.ch);
    assert Flags(cfg, ch1);
    EnqueueAllKeeps(cfg, ch1);
    EnqueueAllKeepsFlags(cfg, ch1);
    var ch2 := Prepare(cfg, r.ch);
    forall k | 0 <= k < cfg.numRanks ensures ch2.ranks[k].numActive == CountActive(ch2.ranks[k].banks) {
      assert ch2.ranks[k].banks == r.ch.ranks[k].banks;
    }
    forall k, b | 0 <= k < cfg.numRanks && 0 <= b < cfg.numBanks ensures BankAt(ch2, k, b) == BankAt(r.ch, k, b) {
    }
  }

  /** What the flags are for: a ready reference's command is legal after the commands so far. */
  lemma ReadyIsLegal(cfg: Config, r: Run, i: nat)
    requires Rowed(cfg, r) && Ready(cfg, r.ch, i)
    ensures LegalNext(r.trace, CmdFor(cfg, r.ch, i))
  {
    var m := r.ch.q[i];
    assert FlagsRight(m, BankAt(r.ch, m.rank, m.bank));
    assert OpenRow(r.trace, m.rank, m.bank)
        == if BankAt(r.ch, m.rank, m.bank).active then Some(BankAt(r.ch, m.rank, m.bank).openRow) else None;
  }

  lemma IssueKeepsMirror(cfg: Config, r: Run, c: Cmd)
    requires Rowed(cfg, r) && InRange(cfg, c) && LegalNext(r.trace, c)
    ensures Shape(cfg, ChanAfter(r.ch, c))
    ensures Mirrors(cfg, ChanAfter(r.ch, c), r.trace + [c]) && Counted(cfg, ChanAfter(r.ch, c))
  {
    var ch' := ChanAfter(r.ch, c);
    var trace' := r.trace + [c];
    assert trace'[..|trace'| - 1] == r.trace;
    var b0 := BankAt(r.ch, c.rank, c.bank);
    assert OpenRow(r.trace, c.rank, c.bank) == if b0.active then Some(b0.openRow) else None;
    forall k, b | 0 <= k < cfg.numRanks && 0 <= b < cfg.numBanks
      ensures OpenRow(trace', k, b) == if BankAt(ch', k, b).active then Some(BankAt(ch', k, b).openRow) else None
    {
      if k != c.rank || b != c.bank { assert BankAt(ch', k, b) == BankAt(r.ch, k, b); }
    }
    CountActiveUpdate(r.ch.ranks[c.rank].banks, c.bank, BankAfter(b0, c));
  }

  lemma IssueKeepsRows(cfg: Config, r: Run, i: nat)
    requires Rowed(cfg, r) && Ready(cfg, r.ch, i)
    ensures var o := Issue(cfg, r.ch, i);
      o.cmd.Some? && Rowed(cfg, r.(ch := o.ch, trace := r.trace + [o.cmd.value]))
  {
    var c := CmdFor(cfg, r.ch, i);
    var o := Issue(cfg, r.ch, i);
    ReadyIsLegal(cfg, r, i);
    IssueKeepsMirror(cfg, r, c);
    var trace' := r.trace + [c];
    forall j | 0 <= j < |trace'| ensures LegalNext(trace'[..j], trace'[j]) {
      if j < |r.trace| { assert trace'[..j] == r.trace[..j]; } else { assert trace'[..j] == r.trace; }
    }
    forall k | 0 <= k < cfg.queueSize && o.ch.q[k].valid
      ensures FlagsRight(o.ch.q[k], BankAt(o.ch, o.ch.q[k].rank, o.ch.q[k].bank))
    {
      var m := r.ch.q[k];
      assert FlagsRight(m, BankAt(r.ch, m.rank, m.bank));
      if c.kind.Cas() && (m.rank != c.rank || m.bank != c.bank) {
        assert BankAt(o.ch, m.rank, m.bank) == BankAt(r.ch, m.rank, m.bank);
      }
    }
  }

  lemma RowedStep(cfg: Config, r: Run, e: Event)
    requires Rowed(cfg, r)
    ensures Rowed(cfg, Step(cfg, r, e))
  {
    if e.Cycle? {
      PrepareKeepsRows(cfg, r);
      var ch1 := Prepare(cfg, r.ch);
      var i := Decide(cfg, e.p, ch1);
      if i.Some? {
        IssueKeepsRows(cfg, r.(ch := ch1), i.value);
        var o := Issue(cfg, ch1, i.value);
        var r' := r.(ch := o.ch, trace := r.trace + [o.cmd.value]);
        assert Rowed(cfg, r');
      }
    } else {
      var r' := Step(cfg, r, e);
      assert forall k, b | 0 <= k < cfg.numRanks && 0 <= b < cfg.numBanks :: BankAt(r'.ch, k, b) == BankAt(r.ch, k, b);
    }
  }

  lemma {:induction false} CountOfClosed(n: nat)
    ensures CountActive(seq(n, i => NEW_BANK)) == 0
  {
    CountZeroMeansNone(seq(n, i => NEW_BANK));
  }

  lemma {:induction false} RowedRun(cfg: Config, events: seq<Event>)
    requires cfg.Valid()
    ensures Rowed(cfg, Exec(cfg, events))
  {
    if events == [] {
      CountOfClosed(cfg.numBanks);
    } else {
      RowedRun(cfg, events[..|events| - 1]);
      RowedStep(cfg, Exec(cfg, events[..|events| - 1]), events[|events| - 1]);
    }
  }

  // ---------- main results ----------

  /** In every run every command is legal after the commands before it: a read or write finds its own row
      open, an activate a closed bank, a precharge an open one. */
  lemma RowSafety(cfg: Config, events: seq<Event>)
    requires cfg.Valid()
    ensures Legal(Exec(cfg, events).trace)
  {
    RowedRun(cfg, events);
  }

  /** In every reachable state the flags cached in each valid reference equal what the banks say now. */
  lemma FlagsAgree(cfg: Config, events: seq<Event>, i: nat)
    requires cfg.Valid() && i < cfg.queueSize
    ensures var ch := Exec(cfg, events).ch;
      ch.q[i].valid ==> FlagsRight(ch.q[i], BankAt(ch, ch.q[i].rank, ch.q[i].bank))
  {
    RowedRun(cfg, events);
  }

  /** The scan of all banks that the counter test stands in for. */
  predicate AllPrecharged(rk: Rank) {
    forall b | 0 <= b < |rk.banks| :: !rk.banks[b].active
  }

  /** In every reachable state each rank's power update gives what the scan over its banks would give: with the clock
      enabled the state of standby, with it low that of power down, each by whether some bank is open. */
  lemma CounterAgreesWithScan(cfg: Config, events: seq<Event>, rank: nat)
    requires cfg.Valid() && rank < cfg.numRanks
    ensures var rk := Exec(cfg, events).ch.ranks[rank];
      && 0 <= rk.numActive <= cfg.numBanks
      && var rk' := UpdatePower(rk);
      && rk'.(power := rk.power) == rk
      && (rk'.power.IDD2N? <==> rk.cke && AllPrecharged(rk))
      && (rk'.power.IDD3N? <==> rk.cke && !AllPrecharged(rk))
      && (rk'.power.IDD3P? <==> !rk.cke && !AllPrecharged(rk))
      && (rk'.power.IDD2P1? <==> !rk.cke && AllPrecharged(rk) && rk.fastExit)
      && (rk'.power.IDD2P0? <==> !rk.cke && AllPrecharged(rk) && !rk.fastExit)
  {
    RowedRun(cfg, events);
    CountZeroMeansNone(Exec(cfg, events).ch.ranks[rank].banks);
    CountBound(Exec(cfg, events).ch.ranks[rank].banks);
  }

  lemma {:induction false} CountBound(banks: seq<Bank>)
    ensures CountActive(banks) <= |banks|
  {
    if banks != [] { CountBound(banks[..|banks| - 1]); }
  }
}
