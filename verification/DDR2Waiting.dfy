/**
 Bounded service, continued to requests that still wait outside the scheduling queue:
 the first-come scheduler starves nobody.
 */
module DDR2Waiting {
  import opened Options
  import opened DDR2State
  import opened DDR2Trace
  import opened DDR2Rows
  import opened DDR2Queue
  import opened DDR2Service
  import opened Products
  import opened Pigeonhole

  /** What the reference in service still needs, or more than any could need if there is none. */
  function HeadLeft(cfg: Config, ch: Chan): int {
    if First(ch).Some? then Left(cfg.t, ch, ch.q[First(ch).value]) else Span(cfg.t) + 1
  }

  lemma HeadLeftInSpan(cfg: Config, ch: Chan)
    requires Shape(cfg, ch) && NoneLater(cfg, ch)
    ensures 1 <= HeadLeft(cfg, ch) <= Span(cfg.t) + 1
  {
    if First(ch).Some? { LeftInSpan(cfg, ch, ch.q[First(ch).value]); }
  }

  /** The requests to complete before the one waiting at position p can be first, counting a full queue behind it. */
  function Places(cfg: Config, ch: Chan, p: nat): int {
    p + cfg.queueSize - |ch.free| + cfg.queueSize
  }

  /** A bound on the cycles until the request waiting at position p completes. */
  function WaitMeasure(cfg: Config, ch: Chan, p: nat): int {
    Places(cfg, ch, p) * (Span(cfg.t) + 1) + HeadLeft(cfg, ch)
  }

  lemma FewerPlaces(cfg: Config, ch: Chan, p: nat, ch': Chan, p': nat)
    requires Shape(cfg, ch) && NoneLater(cfg, ch) && Shape(cfg, ch') && NoneLater(cfg, ch')
    requires Places(cfg, ch', p') < Places(cfg, ch, p)
    ensures WaitMeasure(cfg, ch', p') < WaitMeasure(cfg, ch, p)
  {
    HeadLeftInSpan(cfg, ch);
    HeadLeftInSpan(cfg, ch');
    ProductDown(Places(cfg, ch', p'), Places(cfg, ch, p), Span(cfg.t) + 1, HeadLeft(cfg, ch'), HeadLeft(cfg, ch));
  }

  /** Serving the head, whichever way, brings a waiting request nearer. */
  lemma HeadServed(cfg: Config, ch: Chan, ch1: Chan, ch2: Chan, f: nat, p: nat)
    requires Prepared(ch, ch1) && First(ch) == Some(f) && |ch.free| <= p < |ch.arrivals|
    requires Shape(cfg, ch) && NoneLater(cfg, ch) && Shape(cfg, ch2) && NoneLater(cfg, ch2)
    requires (Waits(cfg, ch1, ch1, f) && ch2 == ch1) || Opens(cfg, ch1, ch2, f) || Completes(ch1, ch2, f)
    ensures WaitMeasure(cfg, ch2, p - |ch.free|) < WaitMeasure(cfg, ch, p)
  {
    var p' := p - |ch.free|;
    PreparedKeepsFirst(ch, ch1);
    FirstIsOldest(ch);
    if Completes(ch1, ch2, f) {
      FewerPlaces(cfg, ch, p, ch2, p');
    } else {
      assert Places(cfg, ch2, p') == Places(cfg, ch, p);
      if Opens(cfg, ch1, ch2, f) { SameRefsKeepFirst(ch1, ch2, f, f); }
      assert HeadLeft(cfg, ch2) < HeadLeft(cfg, ch);
    }
  }

  /** One cycle seen from the head of the queue: the channel once requests are taken in, and after the decision. */
  lemma HeadMoves(cfg: Config, ch: Chan)
    requires Shape(cfg, ch) && Prepared(ch, Prepare(cfg, ch))
    requires NoneLater(cfg, Prepare(cfg, ch)) && Flags(cfg, Prepare(cfg, ch))
    ensures var ch1 := Prepare(cfg, ch); var ch2 := ScheduleFcfs(cfg, ch1).ch;
      match First(ch)
      case None => ch2 == ch1
      case Some(f) => (Waits(cfg, ch1, ch1, f) && ch2 == ch1) || Opens(cfg, ch1, ch2, f) || Completes(ch1, ch2, f)
  {
    var ch1 := Prepare(cfg, ch);
    PreparedKeepsFirst(ch, ch1);
    hide Prepared, Flags, NoneLater, First, Prepare, Left;
    if First(ch).Some? { ServeFirst(cfg, ch1); }
  }

  /** A request that does not fit in the queue this cycle: its place or the work in service shrinks. */
  lemma StillWaits(cfg: Config, r: Run, p: nat)
    requires Sound(cfg, r) && |r.ch.free| <= p < |r.ch.arrivals|
    ensures var ch' := Step(cfg, r, Cycle(Fcfs)).ch; var p' := p - |r.ch.free|;
      p' < |ch'.arrivals| && ch'.arrivals[p'] == r.ch.arrivals[p] && WaitMeasure(cfg, ch', p') < WaitMeasure(cfg, r.ch, p)
  {
    hide Step, Prepared, SlotsKept, NoneLater, Flags, ScheduleFcfs, Prepare, WaitMeasure, Spaced, Covers, Mirrors, Legal, Counted;
    assert SlotsKept(cfg, r.ch) && Shape(cfg, r.ch);
    SoundPrepare(cfg, r);
    SoundStep(cfg, r, Cycle(Fcfs));
    PrepareAt(cfg, r.ch);
    FcfsStep(cfg, r);
    WaitShrinks(cfg, r.ch, p);
  }

  lemma WaitShrinks(cfg: Config, ch: Chan, p: nat)
    requires |ch.free| <= p < |ch.arrivals|
    requires SlotsKept(cfg, ch) && NoneLater(cfg, ch) && Prepared(ch, Prepare(cfg, ch))
    requires var ch1 := Prepare(cfg, ch); SlotsKept(cfg, ch1) && NoneLater(cfg, ch1) && Flags(cfg, ch1)
    requires NoneLater(cfg, ScheduleFcfs(cfg, Prepare(cfg, ch)).ch)
    ensures var ch2 := ScheduleFcfs(cfg, Prepare(cfg, ch)).ch; var p' := p - |ch.free|;
      p' < |ch2.arrivals| && ch2.arrivals[p'] == ch.arrivals[p] && WaitMeasure(cfg, ch2, p') < WaitMeasure(cfg, ch, p)
  {
    var ch1 := Prepare(cfg, ch);
    var ch2 := ScheduleFcfs(cfg, ch1).ch;
    assert Shape(cfg, ch) && Shape(cfg, ch2);
    HeadMoves(cfg, ch);
    hide SlotsKept, NoneLater, Flags, Prepare, ScheduleFcfs, Shape;
    if First(ch).None? {
      FreshHead(cfg, ch, ch1);
      assert Places(cfg, ch1, p - |ch.free|) == Places(cfg, ch, p);
    } else {
      HeadServed(cfg, ch, ch1, ch2, First(ch).value, p);
    }
  }

  /** An empty queue that takes requests in has a head afterwards. */
  lemma FreshHead(cfg: Config, ch: Chan, ch1: Chan)
    requires SlotsKept(cfg, ch) && Prepared(ch, ch1) && First(ch).None? && |ch.free| < |ch.arrivals|
    requires SlotsKept(cfg, ch1) && NoneLater(cfg, ch1)
    ensures HeadLeft(cfg, ch1) < HeadLeft(cfg, ch)
  {
    FirstIsOldest(ch1);
    assert ch1.free == [];
    assert ch1.q[0].valid by { var z: nat := 0; assert z in ch1.free <==> !ch1.q[z].valid; }
    LeftInSpan(cfg, ch1, ch1.q[First(ch1).value]);
  }

  /** A request that fits in the queue this cycle: it gets a slot and keeps it through the scheduling decision. */
  lemma GetsSlot(cfg: Config, r: Run, p: nat)
    requires Sound(cfg, r) && p < |r.ch.free| && p < |r.ch.arrivals|
    ensures var ch' := Step(cfg, r, Cycle(Fcfs)).ch; var m := ch'.q[r.ch.free[p]];
      m.valid && m.request == Some(r.ch.arrivals[p]) && m.ts == r.ch.clock + 1
  {
    var ch, ch1 := r.ch, Prepare(cfg, r.ch);
    var s := ch.free[p];
    SoundPrepare(cfg, r);
    PrepareAt(cfg, ch);
    PreparedKeepsFirst(ch, ch1);
    if Oldest(ch1).Some? {
      var f := Oldest(ch1).value;
      ServeFirst(cfg, ch1);
      var ch2 := ScheduleFcfs(cfg, ch1).ch;
      assert f != s;
      assert SameRef(ch1.q[s], ch2.q[s]);
    }
  }

  lemma WaitMeasureCovers(cfg: Config, r: Run, p: nat)
    requires Sound(cfg, r)
    ensures WaitMeasure(cfg, r.ch, p) > cfg.queueSize * Span(cfg.t)
    ensures WaitMeasure(cfg, r.ch, p) <= (p + 2 * cfg.queueSize + 1) * (Span(cfg.t) + 1)
  {
    HeadLeftInSpan(cfg, r.ch);
    FreeAtMost(cfg, r.ch);
    hide Sound, HeadLeft, Span;
    Covered(cfg.queueSize, Places(cfg, r.ch, p), p, Span(cfg.t), HeadLeft(cfg, r.ch));
  }

  lemma Covered(size: nat, n: int, p: nat, span: int, left: int)
    requires size <= n <= p + 2 * size && 0 < span && 1 <= left <= span + 1
    ensures size * span < n * (span + 1) + left <= (p + 2 * size + 1) * (span + 1)
  {
    var s := span + 1;
    MulMonotone(size, n, s);
    assert size * s == size * span + size;
    MulMonotone(n, p + 2 * size, s);
    assert (p + 2 * size) * s + s == (p + 2 * size + 1) * s;
  }

  lemma FreeAtMost(cfg: Config, ch: Chan)
    requires SlotsKept(cfg, ch)
    ensures |ch.free| <= cfg.queueSize
  {
    DifferentBelow(ch.free, cfg.queueSize);
  }

  // ---------- along a run ----------

  /** Where a request is: outside the queue at a position, in a slot, or completed as a given entry of the history. */
  datatype Stage = Outside(p: nat) | InSlot(s: nat) | Finished(d: nat)

  /** Request x, waiting when the run was at r, has reached this stage at mid and has at most `left` cycles to go. */
  predicate At(cfg: Config, r: Run, mid: Run, x: Request, stage: Stage, left: int) {
    match stage
    case Outside(p) => p < |mid.ch.arrivals| && mid.ch.arrivals[p] == x && WaitMeasure(cfg, mid.ch, p) <= left
    case InSlot(s) =>
      && s < |mid.ch.q| && mid.ch.q[s].valid && mid.ch.q[s].request == Some(x) && mid.ch.q[s].ts > r.ch.clock
      && Measure(cfg, mid.ch, s) <= left
    case Finished(d) => |r.done| <= d < |mid.done| && mid.done[d].request == Some(x) && mid.done[d].ts > r.ch.clock
  }

  /** What holds wherever a run from r has got to. */
  predicate Follows(cfg: Config, r: Run, mid: Run) {
    Sound(cfg, mid) && Extends(r, mid) && r.ch.clock <= mid.ch.clock
  }

  lemma StageCycle(cfg: Config, r: Run, mid: Run, x: Request, stage: Stage, left: int) returns (next: Stage)
    requires Follows(cfg, r, mid) && At(cfg, r, mid, x, stage, left)
    ensures At(cfg, r, Step(cfg, mid, Cycle(Fcfs)), x, next, left - 1)
  {
    var r' := Step(cfg, mid, Cycle(Fcfs));
    StepExtends(cfg, mid, Cycle(Fcfs));
    next := stage;
    match stage {
      case Finished(d) => assert r'.done[d] == mid.done[d];
      case InSlot(s) =>
        CycleServes(cfg, mid, s);
        if r'.done == mid.done + [mid.ch.q[s]] { next := Finished(|mid.done|); }
      case Outside(p) =>
        if p < |mid.ch.free| {
          SoundStep(cfg, mid, Cycle(Fcfs));
          GetsSlot(cfg, mid, p);
          MeasureAtMost(cfg, r'.ch, mid.ch.free[p]);
          WaitMeasureCovers(cfg, mid, p);
          next := InSlot(mid.ch.free[p]);
        } else {
          StillWaits(cfg, mid, p);
          next := Outside(p - |mid.ch.free|);
        }
    }
  }

  lemma StageArrival(cfg: Config, r: Run, mid: Run, e: Event, x: Request, stage: Stage, left: int)
    requires e.Arrival? && Follows(cfg, r, mid) && At(cfg, r, mid, x, stage, left)
    ensures At(cfg, r, Step(cfg, mid, e), x, stage, left)
  {
    hide Follows;
    assert ValidOnes(Arrive(mid.ch, Arriving(mid, e))) == ValidOnes(mid.ch);
    match stage {
      case InSlot(s) => ArrivalKeepsMeasure(cfg, mid.ch, Arriving(mid, e), s);
      case _ =>
    }
  }

  lemma {:induction false} ClockOnlyGrows(cfg: Config, r: Run, events: seq<Event>)
    requires Shape(cfg, r.ch)
    ensures r.ch.clock <= RunFrom(cfg, r, events).ch.clock
  {
    hide Step;
    if events != [] {
      var mid := RunFrom(cfg, r, events[..|events| - 1]);
      ClockOnlyGrows(cfg, r, events[..|events| - 1]);
      ClockStep(cfg, mid, events[|events| - 1]);
    }
  }

  lemma ClockStep(cfg: Config, r: Run, e: Event)
    requires Shape(cfg, r.ch)
    ensures r.ch.clock <= Step(cfg, r, e).ch.clock
  {
    if e.Cycle? {
      PrepareKeepsTimes(cfg, r.ch);
      var i := Decide(cfg, e.p, Prepare(cfg, r.ch));
      hide Prepare;
    }
  }

  lemma RunFollows(cfg: Config, r: Run, events: seq<Event>)
    requires Sound(cfg, r)
    ensures Follows(cfg, r, RunFrom(cfg, r, events))
  {
    SoundRun(cfg, r, events);
    DoneOnlyGrows(cfg, r, events);
    ClockOnlyGrows(cfg, r, events);
  }

  lemma {:induction false} StageAlong(cfg: Config, r: Run, events: seq<Event>, x: Request, start: Stage, left: int)
    returns (stage: Stage)
    requires Sound(cfg, r) && AllFcfs(events)
    requires At(cfg, r, r, x, start, left)
    ensures At(cfg, r, RunFrom(cfg, r, events), x, stage, left - Cycles(events))
  {
    if events == [] {
      stage := start;
    } else {
      var before, e := events[..|events| - 1], events[|events| - 1];
      stage := StageAlong(cfg, r, before, x, start, left);
      RunFollows(cfg, r, before);
      var mid := RunFrom(cfg, r, before);
      if e.Cycle? { stage := StageCycle(cfg, r, mid, x, stage, left - Cycles(before)); }
      else { StageArrival(cfg, r, mid, e, x, stage, left - Cycles(before)); }
    }
  }

  /** A request that has not finished has cycles to go. */
  lemma OutOfTime(cfg: Config, r: Run, r': Run, x: Request, stage: Stage, left: int)
    requires Sound(cfg, r') && At(cfg, r, r', x, stage, left) && left <= 0
    ensures stage.Finished?
  {
    match stage {
      case InSlot(s) => MeasurePositive(cfg, r', s);
      case Outside(p) =>
        WaitMeasureCovers(cfg, r', p);
        MulMonotone(0, cfg.queueSize, Span(cfg.t));
      case Finished(_) =>
    }
  }

  /** Request x has completed since r, having entered the queue after it. */
  predicate CompletedLater(r: Run, r': Run, x: Request) {
    exists d :: |r.done| <= d < |r'.done| && r'.done[d].request == Some(x) && r'.done[d].ts > r.ch.clock
  }

  /** Every request waiting at position p of the arrival queue completes, once, within p + 2 queueSize + 1 spans,
      whatever arrives meanwhile. */
  lemma WaitingIsServed(cfg: Config, prefix: seq<Event>, events: seq<Event>, p: nat)
    requires cfg.Valid() && p < |Exec(cfg, prefix).ch.arrivals|
    requires AllFcfs(events) && Cycles(events) >= (p + 2 * cfg.queueSize + 1) * (Span(cfg.t) + 1)
    ensures var r, r' := Exec(cfg, prefix), Exec(cfg, prefix + events);
      CompletedLater(r, r', r.ch.arrivals[p]) && DoneOnce(r', r.ch.arrivals[p])
  {
    var r := Exec(cfg, prefix);
    SoundStart(cfg);
    SoundRun(cfg, Exec(cfg, []), prefix);
    WaitMeasureCovers(cfg, r, p);
    var left := WaitMeasure(cfg, r.ch, p);
    var stage := StageAlong(cfg, r, events, r.ch.arrivals[p], Outside(p), left);
    SoundRun(cfg, r, events);
    OutOfTime(cfg, r, RunFrom(cfg, r, events), r.ch.arrivals[p], stage, left - Cycles(events));
    RunFromConcat(cfg, Exec(cfg, []), prefix, events);
    DoneMeansOnce(cfg, prefix + events, stage.d, r.ch.arrivals[p]);
  }
}
