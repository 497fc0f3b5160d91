/**
 What becomes of a request: the read or write it asked for, sent where its address says, and an
 answer once its own burst is over.
 */
module DDR2Answers {
  import opened Options
  import opened DDR2State
  import opened DDR2Trace
  import opened DDR2Rows
  import opened DDR2Service
  import opened DDR2Bus
  import opened Products

  // ---------- requests and the commands that complete them ----------

  /** The reads and writes of a history. */
  function CasOnly(trace: seq<Cmd>): seq<Cmd> {
    if trace == [] then []
    else if trace[|trace| - 1].kind.Cas() then CasOnly(trace[..|trace| - 1]) + [trace[|trace| - 1]]
    else CasOnly(trace[..|trace| - 1])
  }

  /** c is what request x asks for: a write for a write or a push, a read for anything else, where its address says. */
  predicate AskedFor(cfg: Config, x: Request, c: Cmd)
    requires cfg.Valid()
  {
    && c.kind == (if x.op == MemWrite || x.op == MemPush then Wr else Rd)
    && var l := Decode(cfg, x.pAddr); c.rank == l.rank && c.bank == l.bank && c.row == l.row
  }

  /** A queued reference stands for its request. */
  predicate StandsFor(cfg: Config, m: MemRef)
    requires cfg.Valid()
  {
    && m.request.Some?
    && var x := m.request.value;
    && (m.isRead <==> x.op != MemWrite && x.op != MemPush)
    && var l := Decode(cfg, x.pAddr); m.rank == l.rank && m.bank == l.bank && m.row == l.row
  }

  predicate AllStand(cfg: Config, ch: Chan)
    requires cfg.Valid()
  {
    forall i | 0 <= i < |ch.q| && ch.q[i].valid :: StandsFor(cfg, ch.q[i])
  }

  /** The k-th reference completed by the k-th read or write, which its request asked for, later than it entered. */
  predicate Paired(cfg: Config, done: seq<MemRef>, cas: seq<Cmd>)
    requires cfg.Valid()
  {
    && |done| == |cas|
    && forall k | 0 <= k < |done| ::
         done[k].request.Some? && AskedFor(cfg, done[k].request.value, cas[k]) && cas[k].time > done[k].ts
  }

  lemma EnqueueStands(cfg: Config, ch: Chan)
    requires Shape(cfg, ch) && AllStand(cfg, ch) && ch.free != [] && ch.arrivals != []
    ensures AllStand(cfg, Enqueue(cfg, ch))
  {
    assert StandsFor(cfg, NewRef(cfg, ch, ch.arrivals[0]));
  }

  lemma {:induction false} EnqueueAllStands(cfg: Config, ch: Chan)
    requires Shape(cfg, ch) && AllStand(cfg, ch)
    ensures AllStand(cfg, EnqueueAll(cfg, ch))
    decreases |ch.arrivals|
  {
    hide AllStand;
    if ch.free != [] && ch.arrivals != [] {
      EnqueueStands(cfg, ch);
      EnqueueAllStands(cfg, Enqueue(cfg, ch));
    }
  }

  lemma IssueStands(cfg: Config, ch: Chan, i: nat)
    requires Shape(cfg, ch) && AllStand(cfg, ch) && Ready(cfg, ch, i)
    ensures AllStand(cfg, Issue(cfg, ch, i).ch)
  {
    forall k | 0 <= k < |ch.q| && Issue(cfg, ch, i).ch.q[k].valid ensures StandsFor(cfg, Issue(cfg, ch, i).ch.q[k]) {
      assert StandsFor(cfg, ch.q[k]);
    }
  }

  /** The command that completes a reference is the one its request asked for. */
  lemma IssueAnswers(cfg: Config, ch: Chan, i: nat)
    requires Shape(cfg, ch) && AllStand(cfg, ch) && Flags(cfg, ch) && Ready(cfg, ch, i)
    ensures var o := Issue(cfg, ch, i);
      && o.cmd.Some? && o.cmd.value.time == ch.clock
      && (o.done.Some? <==> o.cmd.value.kind.Cas())
      && (o.done.Some? ==>
            && o.done.value == ch.q[i] && ch.q[i].request.Some?
            && AskedFor(cfg, ch.q[i].request.value, o.cmd.value))
  {
    assert StandsFor(cfg, ch.q[i]);
    assert FlagsRight(ch.q[i], BankAt(ch, ch.q[i].rank, ch.q[i].bank));
  }

  /** What one cycle sends and completes. */
  lemma CycleAnswers(cfg: Config, r: Run, p: Policy)
    requires Sound(cfg, r) && AllStand(cfg, r.ch)
    ensures var o := Tick(cfg, p, r.ch);
      && AllStand(cfg, o.ch)
      && (o.done.Some? <==> o.cmd.Some? && o.cmd.value.kind.Cas())
      && (o.done.Some? ==>
            && o.done.value.request.Some? && AskedFor(cfg, o.done.value.request.value, o.cmd.value)
            && o.done.value.ts < o.cmd.value.time == o.ch.clock == r.ch.clock + 1)
  {
    var ch1 := Prepare(cfg, r.ch);
    EnqueueAllStands(cfg, Advance(cfg, r.ch));
    SoundPrepare(cfg, r);
    PrepareAt(cfg, r.ch);
    var i := Decide(cfg, p, ch1);
    if i.Some? {
      IssueStands(cfg, ch1, i.value);
      IssueAnswers(cfg, ch1, i.value);
    }
  }

  lemma PairedLog(cfg: Config, done: seq<MemRef>, trace: seq<Cmd>, m: Option<MemRef>, c: Option<Cmd>)
    requires cfg.Valid() && Paired(cfg, done, CasOnly(trace)) && (m.Some? <==> c.Some? && c.value.kind.Cas())
    requires m.Some? ==>
      m.value.request.Some? && AskedFor(cfg, m.value.request.value, c.value) && m.value.ts < c.value.time
    ensures Paired(cfg, Log(done, m), CasOnly(Log(trace, c)))
  {
    hide AskedFor;
    if c.Some? { assert Log(trace, c)[..|trace|] == trace; }
  }

  lemma PairedStep(cfg: Config, r: Run, e: Event)
    requires Sound(cfg, r) && AllStand(cfg, r.ch) && Paired(cfg, r.done, CasOnly(r.trace))
    ensures var r' := Step(cfg, r, e); AllStand(cfg, r'.ch) && Paired(cfg, r'.done, CasOnly(r'.trace))
  {
    if e.Cycle? {
      var o := Tick(cfg, e.p, r.ch);
      CycleAnswers(cfg, r, e.p);
      hide Tick, AllStand, Sound, AskedFor, Paired, CasOnly, Log;
      PairedLog(cfg, r.done, r.trace, o.done, o.cmd);
    }
  }

  lemma {:induction false} PairedRun(cfg: Config, events: seq<Event>)
    requires cfg.Valid()
    ensures var r := Exec(cfg, events); Sound(cfg, r) && AllStand(cfg, r.ch) && Paired(cfg, r.done, CasOnly(r.trace))
  {
    SoundStart(cfg);
    if events != [] {
      PairedRun(cfg, events[..|events| - 1]);
      SoundStep(cfg, Exec(cfg, events[..|events| - 1]), events[|events| - 1]);
      PairedStep(cfg, Exec(cfg, events[..|events| - 1]), events[|events| - 1]);
    }
  }

  /** In every run each completed request got the read or write it asked for: the k-th reference completed belongs to the
      k-th read or write sent, which is a write exactly for a write or a push, and goes to the rank, bank and row of the
      request's address, later than the request entered the queue. */
  lemma CompletedAsAsked(cfg: Config, events: seq<Event>)
    requires cfg.Valid()
    ensures var r := Exec(cfg, events); var cas := CasOnly(r.trace);
      && |r.done| == |cas|
      && forall k | 0 <= k < |r.done| ::
           r.done[k].request.Some? && AskedFor(cfg, r.done[k].request.value, cas[k]) && cas[k].time > r.done[k].ts
  {
    PairedRun(cfg, events);
  }

  // ---------- what a free slot holds ----------

  /** A slot as the constructor leaves it, but for its stamp. */
  predicate Blank(m: MemRef) {
    && m.request == None && m.rank == -1 && m.bank == -1 && m.row == -1
    && m.prePending && m.actPending && m.rdPending && m.wrPending && m.isRead
  }

  predicate FreeAreBlank(ch: Chan) {
    forall i | 0 <= i < |ch.q| && !ch.q[i].valid :: Blank(ch.q[i])
  }

  lemma {:induction false} EnqueueAllKeepsBlank(cfg: Config, ch: Chan)
    requires Shape(cfg, ch) && FreeAreBlank(ch)
    ensures FreeAreBlank(EnqueueAll(cfg, ch))
    decreases |ch.arrivals|
  {
    if ch.free != [] && ch.arrivals != [] { EnqueueAllKeepsBlank(cfg, Enqueue(cfg, ch)); }
  }

  lemma BlankStep(cfg: Config, r: Run, e: Event)
    requires Shape(cfg, r.ch) && FreeAreBlank(r.ch)
    ensures FreeAreBlank(Step(cfg, r, e).ch)
  {
    if e.Cycle? {
      EnqueueAllKeepsBlank(cfg, Advance(cfg, r.ch));
      var i := Decide(cfg, e.p, Prepare(cfg, r.ch));
      hide Prepare, Schedule;
    }
  }

  /** In every run a free slot says nothing of the request that used it last but the time it came. */
  lemma {:induction false} FreeSlotsReset(cfg: Config, events: seq<Event>)
    requires cfg.Valid()
    ensures FreeAreBlank(Exec(cfg, events).ch)
  {
    if events != [] {
      FreeSlotsReset(cfg, events[..|events| - 1]);
      BlankStep(cfg, Exec(cfg, events[..|events| - 1]), events[|events| - 1]);
    }
  }

  // ---------- when the answer comes ----------

  /** A channel on the processor's clock: the events so far, the calls of the clock so far, and the references answered
      with the times they come back. */
  datatype Clocked = Clocked(events: seq<Event>, calls: nat, answers: seq<(MemRef, int)>)

  datatype Input = Asks(pAddr: nat, op: MemOp) | Call

  /** One call of the clock: every `multiplier`-th is a DRAM cycle, which answers what it completes. */
  function ClockStep(cfg: Config, multiplier: nat, s: Clocked, e: Input): Clocked
    requires cfg.Valid() && 0 < multiplier
  {
    match e
    case Asks(pAddr, op) => s.(events := s.events + [Arrival(pAddr, op)])
    case Call =>
      if s.calls % multiplier != 0 then s.(calls := s.calls + 1)
      else Clocked(s.events + [Cycle(Fcfs)], s.calls + 1,
                   Log(s.answers, Answer(cfg.t, multiplier, s.calls, Tick(cfg, Fcfs, Exec(cfg, s.events).ch))))
  }

  function ClockRun(cfg: Config, multiplier: nat, inputs: seq<Input>): Clocked
    requires cfg.Valid() && 0 < multiplier
  {
    if inputs == [] then Clocked([], 0, [])
    else ClockStep(cfg, multiplier, ClockRun(cfg, multiplier, inputs[..|inputs| - 1]), inputs[|inputs| - 1])
  }

  /** The calls so far have made this many DRAM cycles. */
  predicate InStep(multiplier: nat, clock: nat, calls: nat) {
    multiplier * clock - multiplier < calls <= multiplier * clock
  }

  /** A DRAM cycle comes at a call whose number is the product of the multiplier and the cycles before it. */
  lemma CallOfCycle(multiplier: nat, clock: nat, calls: nat)
    requires 0 < multiplier && InStep(multiplier, clock, calls)
    ensures calls % multiplier == 0 ==> calls == multiplier * clock && InStep(multiplier, clock + 1, calls + 1)
    ensures calls % multiplier != 0 ==> InStep(multiplier, clock, calls + 1)
  {
    var q := calls / multiplier;
    assert multiplier * (clock + 1) == multiplier * clock + multiplier;
    if calls % multiplier == 0 {
      assert (clock - q) * multiplier == multiplier * clock - calls;
      OnlyZero(clock - q, multiplier);
    } else if calls == multiplier * clock {
      MultipleGoes(clock, multiplier, calls);
    }
  }

  predicate AnsweredInTime(t: Timing, multiplier: nat, done: seq<MemRef>, cas: seq<Cmd>, answers: seq<(MemRef, int)>) {
    && |answers| == |done| == |cas|
    && forall k | 0 <= k < |answers| ::
         answers[k].0 == done[k] && answers[k].1 == multiplier * (BurstStart(t, cas[k]) + t.BL / 2)
  }

  lemma AnswerLogged(t: Timing, multiplier: nat, r: Run, answers: seq<(MemRef, int)>, calls: nat, o: Outcome)
    requires AnsweredInTime(t, multiplier, r.done, CasOnly(r.trace), answers)
    requires o.done.Some? <==> o.cmd.Some? && o.cmd.value.kind.Cas()
    requires o.done.Some? ==> o.cmd.value.time == r.ch.clock + 1 && calls == multiplier * r.ch.clock
    ensures AnsweredInTime(t, multiplier, Log(r.done, o.done), CasOnly(Log(r.trace, o.cmd)),
                           Log(answers, Answer(t, multiplier, calls, o)))
  {
    if o.cmd.Some? { assert Log(r.trace, o.cmd)[..|r.trace|] == r.trace; }
    if o.done.Some? {
      var c := o.cmd.value;
      LastDataCycle(multiplier, r.ch.clock, BurstStart(t, c) - c.time + t.BL / 2 + 1);
    }
  }

  lemma CallAnswers(cfg: Config, multiplier: nat, s: Clocked, r: Run)
    requires cfg.Valid() && 0 < multiplier && r == Exec(cfg, s.events)
    requires s.calls == multiplier * r.ch.clock
    requires AnsweredInTime(cfg.t, multiplier, r.done, CasOnly(r.trace), s.answers)
    ensures var r' := Step(cfg, r, Cycle(Fcfs)); var o := Tick(cfg, Fcfs, r.ch);
      AnsweredInTime(cfg.t, multiplier, r'.done, CasOnly(r'.trace), Log(s.answers, Answer(cfg.t, multiplier, s.calls, o)))
  {
    hide Tick, AllStand, Sound, AskedFor, Paired, Exec, AnsweredInTime, CasOnly, Answer;
    PairedRun(cfg, s.events);
    CycleAnswers(cfg, r, Fcfs);
    AnswerLogged(cfg.t, multiplier, r, s.answers, s.calls, Tick(cfg, Fcfs, r.ch));
  }

  lemma LastDataCycle(multiplier: nat, clock: nat, cycles: int)
    ensures multiplier * clock + multiplier * cycles == multiplier * (clock + cycles)
  {
  }

  lemma AnswersStart(cfg: Config, multiplier: nat)
    requires cfg.Valid() && 0 < multiplier
    ensures var r := Exec(cfg, []);
      && InStep(multiplier, r.ch.clock, 0)
      && AnsweredInTime(cfg.t, multiplier, r.done, CasOnly(r.trace), [])
  {
  }

  /** An arrival and a call between DRAM cycles answer nothing. */
  lemma QuietInput(cfg: Config, r: Run, pAddr: nat, op: MemOp)
    requires Shape(cfg, r.ch)
    ensures var r' := Step(cfg, r, Arrival(pAddr, op));
      r'.done == r.done && r'.trace == r.trace && r'.ch.clock == r.ch.clock
  {
  }

  lemma {:induction false} AnswersRun(cfg: Config, multiplier: nat, inputs: seq<Input>)
    requires cfg.Valid() && 0 < multiplier
    ensures var s := ClockRun(cfg, multiplier, inputs); var r := Exec(cfg, s.events);
      && InStep(multiplier, r.ch.clock, s.calls)
      && AnsweredInTime(cfg.t, multiplier, r.done, CasOnly(r.trace), s.answers)
  {
    hide Exec, Step, AnsweredInTime, CasOnly, Answer, InStep, Tick;
    if inputs == [] {
      AnswersStart(cfg, multiplier);
    } else {
      var s := ClockRun(cfg, multiplier, inputs[..|inputs| - 1]);
      var r := Exec(cfg, s.events);
      AnswersRun(cfg, multiplier, inputs[..|inputs| - 1]);
      CallOfCycle(multiplier, r.ch.clock, s.calls);
      var e := inputs[|inputs| - 1];
      ClockedEvents(cfg, multiplier, s, e);
      if e.Asks? {
        QuietInput(cfg, r, e.pAddr, e.op);
      } else if s.calls % multiplier == 0 {
        CallAnswers(cfg, multiplier, s, r);
      }
    }
  }

  lemma ClockGoesOn(cfg: Config, r: Run)
    requires Shape(cfg, r.ch)
    ensures Step(cfg, r, Cycle(Fcfs)).ch.clock == r.ch.clock + 1
  {
    PrepareKeepsTimes(cfg, r.ch);
    var i := Decide(cfg, Fcfs, Prepare(cfg, r.ch));
    hide Prepare;
  }

  lemma ClockedEvents(cfg: Config, multiplier: nat, s: Clocked, e: Input)
    requires cfg.Valid() && 0 < multiplier
    ensures var s' := ClockStep(cfg, multiplier, s, e); var r := Exec(cfg, s.events);
      Exec(cfg, s'.events) ==
        match e
        case Asks(pAddr, op) => Step(cfg, r, Arrival(pAddr, op))
        case Call => if s.calls % multiplier != 0 then r else Step(cfg, r, Cycle(Fcfs))
    ensures Step(cfg, Exec(cfg, s.events), Cycle(Fcfs)).ch.clock == Exec(cfg, s.events).ch.clock + 1
  {
    var r := Exec(cfg, s.events);
    ClockGoesOn(cfg, r);
    hide Step;
    var s' := ClockStep(cfg, multiplier, s, e);
    if s'.events != s.events { assert s'.events[..|s'.events| - 1] == s.events; }
  }

  /** On the processor's clock, in every run: the requests come back in the order of their reads and writes, each at the
      call one DRAM cycle after the last data cycle of its own burst, whichever of the two it was. DRAM cycle d comes at
      call multiplier * (d - 1), so no request is back before its burst has left the bus. */
  lemma AnsweredAfterBurst(cfg: Config, multiplier: nat, inputs: seq<Input>, k: nat)
    requires cfg.Valid() && 0 < multiplier && k < |ClockRun(cfg, multiplier, inputs).answers|
    ensures var s := ClockRun(cfg, multiplier, inputs); var cas := CasOnly(Exec(cfg, s.events).trace);
      && |cas| == |s.answers|
      && var m := s.answers[k].0;
      && m.request.Some? && AskedFor(cfg, m.request.value, cas[k])
      && s.answers[k].1 == multiplier * (BurstStart(cfg.t, cas[k]) + cfg.t.BL / 2)
  {
    hide ClockRun, Exec, CasOnly, AskedFor, Sound, AllStand;
    AnswersRun(cfg, multiplier, inputs);
    PairedRun(cfg, ClockRun(cfg, multiplier, inputs).events);
  }

  lemma {:induction false} CasApart(t: Timing, trace: seq<Cmd>)
    requires BurstsDisjoint(t, trace)
    ensures var cas := CasOnly(trace);
      && (forall c | c in cas :: c in trace && c.kind.Cas())
      && forall i, j | 0 <= i < j < |cas| :: BurstStart(t, cas[i]) + t.Burst() <= BurstStart(t, cas[j])
  {
    if trace != [] {
      var n := |trace| - 1;
      CasApart(t, trace[..n]);
      var cas := CasOnly(trace[..n]);
      if trace[n].kind.Cas() {
        forall i | 0 <= i < |cas| ensures BurstStart(t, cas[i]) + t.Burst() <= BurstStart(t, trace[n]) {
          assert cas[i] in trace[..n];
        }
      }
    }
  }

  /** Where the least distance between two reads covers a burst, answers are at least one burst apart. */
  lemma AnswersApart(cfg: Config, multiplier: nat, inputs: seq<Input>, j: nat, k: nat)
    requires cfg.Valid() && 0 < multiplier && ReadGap(cfg) >= cfg.t.Burst()
    requires j < k < |ClockRun(cfg, multiplier, inputs).answers|
    ensures var a := ClockRun(cfg, multiplier, inputs).answers; a[k].1 - a[j].1 >= multiplier * (cfg.t.BL / 2)
  {
    hide ClockRun, Exec, CasOnly, BurstsDisjoint, BurstStart;
    var events := ClockRun(cfg, multiplier, inputs).events;
    AnswersRun(cfg, multiplier, inputs);
    BurstsNeverOverlap(cfg, events);
    CasApart(cfg.t, Exec(cfg, events).trace);
    var cas, b := CasOnly(Exec(cfg, events).trace), cfg.t.BL / 2;
    Apart(multiplier, BurstStart(cfg.t, cas[j]) + b, BurstStart(cfg.t, cas[k]) + b, b);
  }

  lemma Apart(multiplier: nat, x: int, y: int, b: nat)
    requires y - x >= b
    ensures multiplier * y - multiplier * x >= multiplier * b
  {
    MulMonotone(b, y - x, multiplier);
    assert multiplier * y - multiplier * x == (y - x) * multiplier;
  }
}
