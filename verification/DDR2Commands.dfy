/**
 How the first-come scheduler serves its oldest request: it stays the chosen one until it
 completes, and only its own commands are sent meanwhile, at most three of them.
 */
module DDR2Commands {
  import opened Options
  import opened DDR2State
  import opened DDR2Trace
  import opened DDR2Rows
  import opened DDR2Queue
  import opened DDR2Service

  /** Command c is of this kind and for the bank of reference m, an activate for its row. */
  predicate For(m: MemRef, c: Cmd, kind: Kind) {
    c.kind == kind && c.rank == m.rank && c.bank == m.bank && c.row == m.row
  }

  /** The commands sent for m so far: nothing, or one precharge, or one activate, or the two in this order. What its
      flags still call for fits. */
  predicate SoFar(sent: seq<Cmd>, m: MemRef) {
    || sent == []
    || (|sent| == 1 && For(m, sent[0], Pre) && !m.prePending && m.actPending)
    || (|sent| == 1 && For(m, sent[0], Act) && !m.prePending && !m.actPending)
    || (|sent| == 2 && For(m, sent[0], Pre) && For(m, sent[1], Act) && !m.prePending && !m.actPending)
  }

  /** The same request, at the same place in memory, with its read or write still to come. */
  predicate SameWork(m: MemRef, m': MemRef) {
    && SameRef(m, m') && m'.rank == m.rank && m'.bank == m.bank && m'.row == m.row
    && m'.rdPending == m.rdPending && m'.wrPending == m.wrPending && m'.isRead == m.isRead
  }

  /** From r to mid the oldest reference, in slot f, has been served and has not completed. */
  predicate Serving(cfg: Config, r: Run, mid: Run, f: nat, sent: seq<Cmd>) {
    && f < |r.ch.q| == |mid.ch.q| && First(mid.ch) == Some(f) && SameWork(r.ch.q[f], mid.ch.q[f])
    && mid.trace == r.trace + sent && mid.done == r.done && SoFar(sent, mid.ch.q[f])
  }

  /** A precharge or an activate sent for m, which is m' afterwards. */
  predicate Prepares(m: MemRef, c: Cmd, m': MemRef) {
    && SameWork(m, m') && !m'.prePending
    && if m.prePending then For(m, c, Pre) && m'.actPending else m.actPending && For(m, c, Act) && !m'.actPending
  }

  /** The read or write m asks for, sent when its row is open. */
  predicate Finishes(m: MemRef, c: Cmd) {
    !m.prePending && !m.actPending && For(m, c, if m.isRead then Rd else Wr)
  }

  /** What one decision does while f is the oldest: nothing; or it opens or closes the row for f; or it completes f. */
  predicate Turn(ch: Chan, ch': Chan, cmd: Option<Cmd>, done: Option<MemRef>, f: nat)
    requires f < |ch.q|
  {
    if done.Some? then done.value == ch.q[f] && cmd.Some? && Finishes(ch.q[f], cmd.value)
    else
      && |ch'.q| == |ch.q| && First(ch') == Some(f)
      && if cmd.None? then ch'.q[f] == ch.q[f] else Prepares(ch.q[f], cmd.value, ch'.q[f])
  }

  /** The scheduling decision, once requests are taken in. */
  lemma OldestTurn(cfg: Config, ch: Chan, f: nat)
    requires Shape(cfg, ch) && Flags(cfg, ch) && Stamped(ch) && Oldest(ch) == Some(f) && First(ch) == Some(f) && f < |ch.q|
    ensures var o := ScheduleFcfs(cfg, ch); Turn(ch, o.ch, o.cmd, o.done, f)
  {
    var m := ch.q[f];
    assert ValidOnes(ch)[f];
    assert m.valid && FlagsRight(m, BankAt(ch, m.rank, m.bank));
    if Ready(cfg, ch, f) {
      var c, o := CmdFor(cfg, ch, f), Issue(cfg, ch, f);
      if !c.kind.Cas() {
        assert BankAt(o.ch, m.rank, m.bank) == BankAfter(BankAt(ch, m.rank, m.bank), c);
        assert o.ch.q[f] == Flagged(m, BankAt(o.ch, m.rank, m.bank));
        SameRefsKeepFirst(ch, o.ch, f, f);
      }
    }
  }

  lemma CycleTurn(cfg: Config, mid: Run, f: nat)
    requires Sound(cfg, mid) && f < |mid.ch.q| && First(mid.ch) == Some(f)
    ensures var o := Tick(cfg, Fcfs, mid.ch); Turn(mid.ch, o.ch, o.cmd, o.done, f)
  {
    var ch1 := Prepare(cfg, mid.ch);
    SoundPrepare(cfg, mid);
    PrepareAt(cfg, mid.ch);
    PreparedKeepsFirst(mid.ch, ch1);
    FirstIsOldest(mid.ch);
    assert Flags(cfg, ch1) && Stamped(ch1) && |ch1.q| == |mid.ch.q| && ch1.q[f] == mid.ch.q[f];
    hide Sound, SlotsKept, Prepared, Flags, Stamped, First, Prepare, ScheduleFcfs;
    OldestTurn(cfg, ch1, f);
    hide Turn;
    SameTurn(ch1, mid.ch, ScheduleFcfs(cfg, ch1).ch, ScheduleFcfs(cfg, ch1).cmd, ScheduleFcfs(cfg, ch1).done, f);
  }

  lemma SameTurn(ch1: Chan, ch: Chan, ch': Chan, cmd: Option<Cmd>, done: Option<MemRef>, f: nat)
    requires f < |ch1.q| == |ch.q| && ch1.q[f] == ch.q[f] && Turn(ch1, ch', cmd, done, f)
    ensures Turn(ch, ch', cmd, done, f)
  {
  }

  /** A command more for the same reference fits what was sent before. */
  lemma OneMore(sent: seq<Cmd>, m: MemRef, c: Cmd, m': MemRef)
    requires SoFar(sent, m) && Prepares(m, c, m')
    ensures SoFar(sent + [c], m')
  {
  }

  lemma ServingCycle(cfg: Config, r: Run, mid: Run, f: nat, sent: seq<Cmd>) returns (sent': seq<Cmd>)
    requires Shape(cfg, mid.ch) && Serving(cfg, r, mid, f, sent)
    requires var o := Tick(cfg, Fcfs, mid.ch); o.done.None? && Turn(mid.ch, o.ch, o.cmd, o.done, f)
    ensures Serving(cfg, r, Step(cfg, mid, Cycle(Fcfs)), f, sent')
  {
    hide Tick, First, SoFar;
    var o := Tick(cfg, Fcfs, mid.ch);
    sent' := sent;
    if o.cmd.Some? {
      sent' := sent + [o.cmd.value];
      OneMore(sent, mid.ch.q[f], o.cmd.value, o.ch.q[f]);
      assert Step(cfg, mid, Cycle(Fcfs)).trace == r.trace + sent';
    }
    assert Serving(cfg, r, Step(cfg, mid, Cycle(Fcfs)), f, sent');
  }

  lemma NothingDone(cfg: Config, mid: Run)
    requires Shape(cfg, mid.ch) && |Step(cfg, mid, Cycle(Fcfs)).done| == |mid.done|
    ensures Tick(cfg, Fcfs, mid.ch).done.None?
  {
  }

  lemma ServingStep(cfg: Config, r: Run, mid: Run, f: nat, sent: seq<Cmd>, e: Event) returns (sent': seq<Cmd>)
    requires Shape(cfg, mid.ch) && Sound(cfg, mid) && (e.Cycle? ==> e.p.Fcfs?)
    requires f < |mid.ch.q| && First(mid.ch) == Some(f) && Serving(cfg, r, mid, f, sent)
    requires |Step(cfg, mid, e).done| == |mid.done|
    ensures Serving(cfg, r, Step(cfg, mid, e), f, sent')
  {
    hide Serving, Turn, Tick, First, Timed, Rowed, SlotsKept, Stamped;
    if e.Cycle? {
      CycleTurn(cfg, mid, f);
      NothingDone(cfg, mid);
      sent' := ServingCycle(cfg, r, mid, f, sent);
    } else {
      sent' := sent;
      ServingArrival(cfg, r, mid, f, sent, e);
    }
  }

  lemma ServingArrival(cfg: Config, r: Run, mid: Run, f: nat, sent: seq<Cmd>, e: Event)
    requires e.Arrival? && Shape(cfg, mid.ch) && Serving(cfg, r, mid, f, sent)
    ensures Serving(cfg, r, Step(cfg, mid, e), f, sent)
  {
    hide SoFar;
    assert ValidOnes(Arrive(mid.ch, Arriving(mid, e))) == ValidOnes(mid.ch);
  }

  lemma {:induction false} ServingAlong(cfg: Config, r: Run, events: seq<Event>, f: nat) returns (sent: seq<Cmd>)
    requires Sound(cfg, r) && First(r.ch) == Some(f) && f < |r.ch.q| && AllFcfs(events)
    requires |RunFrom(cfg, r, events).done| == |r.done|
    ensures Serving(cfg, r, RunFrom(cfg, r, events), f, sent)
  {
    if events == [] {
      sent := [];
    } else {
      var before := events[..|events| - 1];
      DoneOnlyGrows(cfg, r, before);
      SoundRun(cfg, r, before);
      StepExtends(cfg, RunFrom(cfg, r, before), events[|events| - 1]);
      sent := ServingAlong(cfg, r, before, f);
      sent := ServingStep(cfg, r, RunFrom(cfg, r, before), f, sent, events[|events| - 1]);
    }
  }

  /** While nothing has completed since, the oldest request is still the chosen one, and all that was sent is for it: at
      most one precharge and then at most one activate. The cycle that completes something completes it, with the read
      or write it asks for, and finds its row open. */
  lemma OldestTakesThreeCommands(cfg: Config, prefix: seq<Event>, events: seq<Event>, f: nat) returns (sent: seq<Cmd>)
    requires cfg.Valid() && First(Exec(cfg, prefix).ch) == Some(f) && AllFcfs(events)
    requires var r := Exec(cfg, prefix); |RunFrom(cfg, r, events).done| == |r.done|
    ensures var r := Exec(cfg, prefix); var mid := RunFrom(cfg, r, events); var r' := Step(cfg, mid, Cycle(Fcfs));
      && Serving(cfg, r, mid, f, sent)
      && (r'.done != mid.done ==>
            && r'.done == r.done + [mid.ch.q[f]] && mid.ch.q[f].request == r.ch.q[f].request
            && |r'.trace| == |mid.trace| + 1 && Finishes(mid.ch.q[f], r'.trace[|mid.trace|]))
  {
    var r := Exec(cfg, prefix);
    SoundStart(cfg);
    SoundRun(cfg, Exec(cfg, []), prefix);
    FirstIsOldest(r.ch);
    SoundRun(cfg, r, events);
    hide Exec, Sound, RunFrom, First, Tick;
    sent := ServingAlong(cfg, r, events, f);
    var mid := RunFrom(cfg, r, events);
    CycleTurn(cfg, mid, f);
    LastTurn(cfg, r, mid, f, sent);
  }

  lemma LastTurn(cfg: Config, r: Run, mid: Run, f: nat, sent: seq<Cmd>)
    requires Shape(cfg, mid.ch) && Serving(cfg, r, mid, f, sent)
    requires var o := Tick(cfg, Fcfs, mid.ch); Turn(mid.ch, o.ch, o.cmd, o.done, f)
    ensures var r' := Step(cfg, mid, Cycle(Fcfs));
      r'.done != mid.done ==>
        && r'.done == r.done + [mid.ch.q[f]] && mid.ch.q[f].request == r.ch.q[f].request
        && |r'.trace| == |mid.trace| + 1 && Finishes(mid.ch.q[f], r'.trace[|mid.trace|])
  {
  }
}
