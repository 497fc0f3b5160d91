/**
 The DDR2 channel as the controller runs it: one object whose clock, ranks, queue
 slots and lists are updated in place. Each method is proved against the function
 of DDR2State that the whole-run results speak of.
 */
module DDR2Controller {
  import opened Options
  import opened DDR2State
  import opened DDR2Trace

  class DDR2 {
    const cfg: Config
    const multiplier: nat
    const ranks: array<Rank>
    const dramQ: array<MemRef>
    var dramClock: nat
    var freeList: seq<nat>
    var arrivals: seq<Request>
    var occupancy: int
    var lastPrecharge: nat
    var lastActivate: nat
    var lastRead: nat
    var lastWrite: nat

    ghost function State(): Chan
      reads this, ranks, dramQ
    {
      Chan(dramClock, ranks[..], dramQ[..], freeList, arrivals, occupancy, lastPrecharge, lastActivate, lastRead, lastWrite)
    }

    ghost predicate Valid()
      reads this, ranks, dramQ
    {
      0 < multiplier && Shape(cfg, State())
    }

    constructor (cfg: Config, multiplier: nat)
      requires cfg.Valid() && 0 < multiplier
      ensures Valid() && this.cfg == cfg && this.multiplier == multiplier && fresh(ranks) && fresh(dramQ)
      ensures State() == Init(cfg)
    {
      this.cfg, this.multiplier := cfg, multiplier;
      dramClock, occupancy, arrivals := 0, 0, [];
      lastPrecharge, lastActivate, lastRead, lastWrite := 0, 0, 0, 0;
      ranks := new Rank[cfg.numRanks](i => NewRank(cfg));
      dramQ := new MemRef[cfg.queueSize](i => FREE_REF);
      freeList := [];
      new;
      var i := 0;
      while i < cfg.queueSize
        invariant 0 <= i <= cfg.queueSize
        invariant freeList == seq(i, k requires 0 <= k => k)
        invariant ranks[..] == Init(cfg).ranks && dramQ[..] == Init(cfg).q
        invariant dramClock == 0 && occupancy == 0 && arrivals == []
        invariant lastPrecharge == 0 && lastActivate == 0 && lastRead == 0 && lastWrite == 0
      {
        freeList := freeList + [i];
        i := i + 1;
      }
    }

    /** A request joins the end of the arrival queue. */
    method Arrive(r: Request)
      requires Valid()
      modifies this`arrivals
      ensures Valid() && State() == DDR2State.Arrive(old(State()), r)
    {
      arrivals := arrivals + [r];
    }

    /** The request at the head of the arrival queue moves into a free slot. */
    method Enqueue()
      requires Valid() && freeList != [] && arrivals != []
      modifies this`arrivals, this`occupancy, this`freeList, dramQ
      ensures Valid() && State() == DDR2State.Enqueue(cfg, old(State()))
    {
      var mreq := arrivals[0];
      arrivals := arrivals[1..];
      occupancy := occupancy + 1;
      var index := freeList[0];
      freeList := freeList[1..];
      var l := Decode(cfg, mreq.pAddr);
      var b := ranks[l.rank].banks[l.bank];
      var isRead := mreq.op != MemWrite && mreq.op != MemPush;
      dramQ[index] := MemRef(true, Some(mreq), l.rank, l.bank, l.row,
                             b.active && l.row != b.openRow, !b.active || l.row != b.openRow,
                             isRead, !isRead, isRead, dramClock);
    }

    /** Recompute the pending flags, slot by slot. */
    method UpdateQueueState()
      requires Valid()
      modifies dramQ
      ensures Valid() && State() == UpdateQueue(cfg, old(State()))
    {
      var i := 0;
      while i < dramQ.Length
        invariant 0 <= i <= dramQ.Length
        invariant forall k | 0 <= k < i :: dramQ[k] == Refreshed(cfg, old(State()), old(dramQ[k]))
        invariant forall k | i <= k < dramQ.Length :: dramQ[k] == old(dramQ[k])
      {
        var m := dramQ[i];
        assert m == old(State()).q[i];
        if m.valid {
          var b := ranks[m.rank].banks[m.bank];
          dramQ[i] := m.(prePending := b.active && m.row != b.openRow, actPending := !b.active || m.row != b.openRow);
        }
        i := i + 1;
      }
      assert dramQ[..] == UpdateQueue(cfg, old(State())).q;
    }

    // ---------- guards ----------

    method CanIssuePrecharge(rank: nat, bank: nat) returns (ok: bool)
      requires Valid() && rank < cfg.numRanks && bank < cfg.numBanks
      ensures ok == RankCanPre(cfg.t, State().ranks[rank], bank, dramClock)
    {
      var t, b := cfg.t, ranks[rank].banks[bank];
      if dramClock - b.lastWr < t.tWR + t.tWL + t.BL / 2 { return false; }
      if dramClock - b.lastRd < t.tRTP { return false; }
      if dramClock - b.lastAct < t.tRAS { return false; }
      return true;
    }

    method CanIssueActivate(rank: nat, bank: nat) returns (ok: bool)
      requires Valid() && rank < cfg.numRanks && bank < cfg.numBanks
      ensures ok == RankCanAct(cfg.t, State().ranks[rank], bank, dramClock)
    {
      var t, rk := cfg.t, ranks[rank];
      if dramClock < t.tRFC { return false; }
      if dramClock - rk.banks[bank].lastPre < t.tRP { return false; }
      var i := 0;
      while i < |rk.banks|
        invariant 0 <= i <= |rk.banks|
        invariant forall k | 0 <= k < i && k != bank :: dramClock - rk.banks[k].lastAct >= t.tRRD
      {
        if i != bank && dramClock - rk.banks[i].lastAct < t.tRRD { return false; }
        i := i + 1;
      }
      if dramClock - rk.banks[bank].lastAct < t.tRC { return false; }
      return true;
    }

    method CanIssueRead(rank: nat, bank: nat, row: int) returns (ok: bool)
      requires Valid() && rank < cfg.numRanks && bank < cfg.numBanks
      ensures ok == CanRd(cfg.t, State(), rank, bank, row, dramClock)
    {
      var t, rk := cfg.t, ranks[rank];
      if rk.banks[bank].openRow != row { return false; }
      if dramClock - rk.banks[bank].lastAct < t.tRCD { return false; }
      if dramClock - rk.lastRd < t.tCCD || dramClock - rk.lastWr < t.tCCD { return false; }
      if dramClock - rk.lastWr < t.tWTR + t.tWL + t.BL / 2 { return false; }
      var i := 0;
      while i < ranks.Length
        invariant 0 <= i <= ranks.Length
        invariant forall k | 0 <= k < i && k != rank ::
          && dramClock - ranks[k].lastRd >= t.tRTRS + t.Burst()
          && dramClock - ranks[k].lastWr + t.tCL >= t.tRTRS + t.tWL + t.Burst()
      {
        if i != rank {
          if dramClock - ranks[i].lastRd < t.tRTRS + t.BL / 2 { return false; }
          if dramClock - ranks[i].lastWr + t.tCL < t.tRTRS + t.tWL + t.BL / 2 { return false; }
        }
        i := i + 1;
      }
      return true;
    }

    method CanIssueWrite(rank: nat, bank: nat, row: int) returns (ok: bool)
      requires Valid() && rank < cfg.numRanks && bank < cfg.numBanks
      ensures ok == CanWr(cfg.t, State(), rank, bank, row, dramClock)
    {
      var t, rk := cfg.t, ranks[rank];
      if rk.banks[bank].openRow != row { return false; }
      if dramClock - rk.banks[bank].lastAct < t.tRCD { return false; }
      if dramClock - rk.lastRd < t.tCCD || dramClock - rk.lastWr < t.tCCD { return false; }
      var i := 0;
      while i < ranks.Length
        invariant 0 <= i <= ranks.Length
        invariant i > 0 ==> dramClock - lastRead + t.tWL >= t.tRTRS + t.tCL + t.Burst()
        invariant i > 1 || (i == 1 && rank != 0) ==> dramClock - lastWrite >= t.tOST + t.Burst()
      {
        if dramClock - lastRead + t.tWL < t.tRTRS + t.tCL + t.BL / 2 { return false; }
        if i != rank {
          if dramClock - lastWrite < t.tOST + t.BL / 2 { return false; }
        }
        i := i + 1;
      }
      return true;
    }

    // ---------- commands ----------

    method Precharge(rank: nat, bank: nat)
      requires Valid() && rank < cfg.numRanks && bank < cfg.numBanks
      modifies ranks, this`lastPrecharge
      ensures Valid() && forall row: int :: State() == ChanAfter(old(State()), Cmd(Pre, rank, bank, row, dramClock))
    {
      var rk, b := ranks[rank], ranks[rank].banks[bank];
      ranks[rank] := rk.(numActive := rk.numActive - 1, lastPre := dramClock,
                         banks := rk.banks[bank := b.(active := false, lastPre := dramClock)]);
      lastPrecharge := dramClock;
    }

    method Activate(rank: nat, bank: nat, row: int)
      requires Valid() && rank < cfg.numRanks && bank < cfg.numBanks
      modifies ranks, this`lastActivate
      ensures Valid() && State() == ChanAfter(old(State()), Cmd(Act, rank, bank, row, dramClock))
    {
      var rk, b := ranks[rank], ranks[rank].banks[bank];
      ranks[rank] := rk.(numActive := rk.numActive + 1, lastAct := dramClock,
                         banks := rk.banks[bank := b.(active := true, openRow := row, lastAct := dramClock)]);
      lastActivate := dramClock;
    }

    method Read(rank: nat, bank: nat, row: int)
      requires Valid() && rank < cfg.numRanks && bank < cfg.numBanks
      modifies ranks, this`lastRead
      ensures Valid() && State() == ChanAfter(old(State()), Cmd(Rd, rank, bank, row, dramClock))
    {
      var rk, b := ranks[rank], ranks[rank].banks[bank];
      ranks[rank] := rk.(lastRd := dramClock, banks := rk.banks[bank := b.(lastRd := dramClock)]);
      lastRead := dramClock;
    }

    method Write(rank: nat, bank: nat, row: int)
      requires Valid() && rank < cfg.numRanks && bank < cfg.numBanks
      modifies ranks, this`lastWrite
      ensures Valid() && State() == ChanAfter(old(State()), Cmd(Wr, rank, bank, row, dramClock))
    {
      var rk, b := ranks[rank], ranks[rank].banks[bank];
      ranks[rank] := rk.(lastWr := dramClock, banks := rk.banks[bank := b.(lastWr := dramClock)]);
      lastWrite := dramClock;
    }

    /** Give slot i back. */
    method Retire(i: nat)
      requires Valid() && i < dramQ.Length
      modifies dramQ, this`freeList, this`occupancy
      ensures Valid()
      ensures State() == old(State()).(q := old(State()).q[i := Complete(old(State()).q[i])],
                                       free := old(freeList) + [i], occupancy := old(occupancy) - 1)
    {
      dramQ[i] := FREE_REF.(ts := dramQ[i].ts);
      freeList := freeList + [i];
      occupancy := occupancy - 1;
    }

    // ---------- schedulers ----------

    /** The command that the reference in slot i needs passes its guard. */
    method CanServe(i: nat) returns (ok: bool)
      requires Valid() && i < dramQ.Length && dramQ[i].valid
      ensures ok == Ready(cfg, State(), i)
    {
      var m := dramQ[i];
      assert m == State().q[i] && RefInRange(cfg, m);
      if m.prePending { ok := CanIssuePrecharge(m.rank, m.bank); }
      else if m.actPending { ok := CanIssueActivate(m.rank, m.bank); }
      else if m.rdPending { ok := CanIssueRead(m.rank, m.bank, m.row); }
      else if m.wrPending { ok := CanIssueWrite(m.rank, m.bank, m.row); }
      else { ok := false; }
    }

    /** Send the command that the reference in slot i needs; a read or write completes it. */
    method Serve(i: nat) returns (done: Option<MemRef>)
      requires Valid() && i < dramQ.Length && dramQ[i].valid && Needs(dramQ[i]).Some?
      modifies this, ranks, dramQ
      ensures Valid() && State() == Issue(cfg, old(State()), i).ch && done == Issue(cfg, old(State()), i).done
    {
      var m := dramQ[i];
      assert m == State().q[i] && RefInRange(cfg, m);
      ghost var c := CmdFor(cfg, State(), i);
      if m.prePending {
        Precharge(m.rank, m.bank);
        assert State() == ChanAfter(old(State()), Cmd(Pre, m.rank, m.bank, m.row, dramClock));
        UpdateQueueState();
        done := None;
      } else if m.actPending {
        Activate(m.rank, m.bank, m.row);
        UpdateQueueState();
        done := None;
      } else {
        if m.rdPending { Read(m.rank, m.bank, m.row); } else { Write(m.rank, m.bank, m.row); }
        Retire(i);
        done := Some(m);
      }
    }

    method ScheduleFCFS() returns (done: Option<MemRef>)
      requires Valid()
      modifies this, ranks, dramQ
      ensures Valid() && State() == ScheduleFcfs(cfg, old(State())).ch && done == ScheduleFcfs(cfg, old(State())).done
    {
      var oldestTime, index, i := dramClock, -1, 0;
      while i < dramQ.Length
        invariant 0 <= i <= dramQ.Length && -1 <= index < i
        invariant oldestTime == if index < 0 then dramClock else dramQ[index].ts
        invariant Pick(State().q, ValidOnes(State()), dramClock, i) == if index < 0 then None else Some(index as nat)
      {
        if dramQ[i].valid && dramQ[i].ts < oldestTime {
          oldestTime, index := dramQ[i].ts, i;
        }
        i := i + 1;
      }
      done := None;
      if index >= 0 {
        assert ValidOnes(State())[index];
        var ok := CanServe(index);
        if ok { done := Serve(index); }
      }
    }

    /** The oldest slot whose next command is a read or write (or, without `cas`, is none) and can be sent now. */
    method OldestReady(cas: bool) returns (index: int)
      requires Valid()
      ensures index < 0 <==> Pick(State().q, ReadyOnes(cfg, State(), cas), dramClock, dramQ.Length).None?
      ensures index >= 0 ==> Pick(State().q, ReadyOnes(cfg, State(), cas), dramClock, dramQ.Length) == Some(index as nat)
    {
      var oldestTime, i := dramClock, 0;
      index := -1;
      ghost var s, ready := State(), ReadyOnes(cfg, State(), cas);
      while i < dramQ.Length
        invariant 0 <= i <= dramQ.Length && -1 <= index < i
        invariant oldestTime == if index < 0 then dramClock else s.q[index].ts
        invariant Pick(s.q, ready, dramClock, i) == if index < 0 then None else Some(index as nat)
      {
        var m := dramQ[i];
        assert m == s.q[i];
        var ok := false;
        if m.valid && (!m.prePending && !m.actPending) == cas { ok := CanServe(i); }
        assert ok == ready[i];
        if ok && m.ts < oldestTime {
          oldestTime, index := m.ts, i;
        }
        i := i + 1;
      }
    }

    method ScheduleFRFCFS() returns (done: Option<MemRef>)
      requires Valid()
      modifies this, ranks, dramQ
      ensures Valid() && State() == ScheduleFrFcfs(cfg, old(State())).ch && done == ScheduleFrFcfs(cfg, old(State())).done
    {
      done := None;
      if |freeList| != cfg.queueSize {
        var index := OldestReady(true);
        if index < 0 { index := OldestReady(false); }
        if index >= 0 {
          assert FrChoice(cfg, State()) == Some(index as nat);
          done := Serve(index);
        }
      }
    }

    // ---------- the clock ----------

    method UpdatePowerState(r: nat)
      requires Valid() && r < ranks.Length
      modifies ranks
      ensures Valid() && ranks[..] == old(ranks[..])[r := UpdatePower(old(ranks[r]))]
    {
      var rk := ranks[r];
      var allBanksPrecharged := rk.numActive == 0;
      var power;
      if !rk.cke {
        if allBanksPrecharged { power := if rk.fastExit then IDD2P1 else IDD2P0; } else { power := IDD3P; }
      } else {
        if allBanksPrecharged { power := IDD2N; } else { power := IDD3N; }
      }
      ranks[r] := rk.(power := power);
    }

    method UpdatePowerStates()
      requires Valid()
      modifies ranks
      ensures Valid() && State() == old(State()).(ranks := Advance(cfg, old(State())).ranks)
    {
      var i := 0;
      while i < ranks.Length
        invariant 0 <= i <= ranks.Length && Valid()
        invariant forall k | 0 <= k < i :: ranks[k] == UpdatePower(old(ranks[k]))
        invariant forall k | i <= k < ranks.Length :: ranks[k] == old(ranks[k])
      {
        UpdatePowerState(i);
        i := i + 1;
      }
      assert ranks[..] == Advance(cfg, old(State())).ranks;
    }

    method EnqueueArrivals()
      requires Valid()
      modifies this`arrivals, this`occupancy, this`freeList, dramQ
      ensures Valid() && State() == EnqueueAll(cfg, old(State()))
    {
      while freeList != [] && arrivals != []
        invariant Valid() && EnqueueAll(cfg, State()) == EnqueueAll(cfg, old(State()))
        decreases |arrivals|
      {
        Enqueue();
      }
    }

    method DramCycle() returns (done: Option<MemRef>)
      requires Valid()
      modifies this, ranks, dramQ
      ensures Valid() && State() == Tick(cfg, Fcfs, old(State())).ch && done == Tick(cfg, Fcfs, old(State())).done
    {
      dramClock := dramClock + 1;
      UpdatePowerStates();
      assert State() == Advance(cfg, old(State()));
      EnqueueArrivals();
      done := ScheduleFCFS();
    }

    /** Called once per processor cycle; every `multiplier`-th call is a DRAM cycle. A request served now is
        returned to the memory system at the time given: after the burst of the command sent for it. */
    method Clock(globalClock: nat) returns (served: Option<(MemRef, int)>)
      requires Valid()
      modifies this, ranks, dramQ
      ensures Valid()
      ensures globalClock % multiplier != 0 ==> State() == old(State()) && served == None
      ensures globalClock % multiplier == 0 ==>
        var o := Tick(cfg, Fcfs, old(State()));
        && State() == o.ch
        && served == Answer(cfg.t, multiplier, globalClock, o)
        && (served.Some? <==> o.done.Some?)
        && (served.Some? ==>
              && o.cmd.Some? && served.value.0 == o.done.value
              && served.value.1 ==
                   globalClock + multiplier * (BurstStart(cfg.t, o.cmd.value) - o.cmd.value.time + cfg.t.BL / 2 + 1))
    {
      served := None;
      if globalClock % multiplier == 0 {
        CompletionSends(cfg, Fcfs, State());
        var done := DramCycle();
        if done.Some? {
          var latency := if done.value.rdPending then cfg.t.tCL else cfg.t.tWL;
          served := Some((done.value, globalClock + multiplier * (latency + cfg.t.BL / 2 + 1)));
        }
      }
    }
  }
}
