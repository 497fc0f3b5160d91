/**
 What the fetch pipeline guarantees over every run: in-order delivery, conservation of
 buckets and of room, and no bucket before its time.
 */
module FetchRuns {
  import opened Fetch
  import opened Products

  lemma StepKept(cfg: Config, s: State, e: Event)
    requires Kept(cfg, s)
    ensures Kept(cfg, Step(cfg, s, e))
  {
    hide Conserved, Requests, Ordered, Up, Credits, NextUnanswered, Room, Request, Decode, Issue, ReadyItem;
    if Enabled(cfg, s, e) {
      match e {
        case Cycle(work, n, accepted) =>
          var s0 := s.(now := s.now + 1);
          TimePasses(cfg, s);
          if work { RequestKept(cfg, s0, n); }
          var s1 := if work then Request(cfg, s0, n) else s0;
          DecodeKept(cfg, s1);
          IssueKept(cfg, Decode(cfg, s1), accepted);
        case Answer(b) => ReadyItemKept(cfg, s, b);
      }
    }
  }

  lemma TimePasses(cfg: Config, s: State)
    requires Kept(cfg, s)
    ensures Kept(cfg, s.(now := s.now + 1))
  {
    hide Requests, Up;
    var s' := s.(now := s.now + 1);
    SameLine(cfg, s, s');
    hide Ordered, Room;
    assert Core(cfg, s');
  }

  lemma {:induction false} KeptAlways(cfg: Config, events: seq<Event>)
    requires cfg.Valid()
    ensures Kept(cfg, Exec(cfg, events))
  {
    if events == [] {
      InitKept(cfg);
    } else {
      KeptAlways(cfg, events[..|events| - 1]);
      StepKept(cfg, Exec(cfg, events[..|events| - 1]), events[|events| - 1]);
    }
  }

  /** In whatever order the cache answers, what reaches the reorder buffer is the first instructions fetched, in fetch
      order, without gap or repetition. */
  lemma InOrderDelivery(cfg: Config, events: seq<Event>)
    requires cfg.Valid()
    ensures var s := Exec(cfg, events);
      |s.issued| <= Fetched(s) && s.issued == Range(0, |s.issued|) && s.issued <= Range(0, Fetched(s))
  {
    var s := Exec(cfg, events);
    KeptAlways(cfg, events);
    EndGrows(cfg, s, |Line(s)|);
    assert s.starts[s.minItem] <= Fetched(s);
    hide Core;
    assert Range(0, |s.issued|) <= Range(0, Fetched(s));
  }

  lemma {:induction false} EndGrows(cfg: Config, s: State, n: nat)
    requires Shape(cfg, s) && n <= |Line(s)|
    ensures |s.issued| <= EndAt(cfg, s, n)
  {
    if n > 0 { EndGrows(cfg, s, n - 1); }
  }

  /** Every bucket is always in exactly one place: free, requested, waiting for an earlier answer, in the pipeline, or
      in the instruction queue. Requests under way and requests still allowed add up. */
  lemma BucketsConserved(cfg: Config, events: seq<Event>)
    requires cfg.Valid()
    ensures var s := Exec(cfg, events);
      && |s.pool| + |s.requested| + |s.received| + |s.buffer| + |s.instQueue| == cfg.length + 1 + cfg.maxReqs
      && (forall b: nat | b < cfg.length + 1 + cfg.maxReqs ::
            multiset(s.pool)[b] + multiset(s.requested)[b] + multiset(s.received)[b] + multiset(s.buffer)[b] + multiset(s.instQueue)[b] == 1)
      && s.nIRequests + |s.requested| == cfg.maxReqs
      && |s.buffer| <= 2 * cfg.length + 1 + cfg.maxReqs == cfg.BufferSize()
  {
    var s := Exec(cfg, events);
    KeptAlways(cfg, events);
    forall b: nat | b < cfg.Buckets()
      ensures multiset(s.pool)[b] + multiset(s.requested)[b] + multiset(s.received)[b] + multiset(s.buffer)[b] + multiset(s.instQueue)[b] == 1
    {
      OnePlace(cfg, s, b);
    }
    PlacesAddUp(cfg, s);
    hide Core;
  }

  lemma PlacesAddUp(cfg: Config, s: State)
    requires Conserved(cfg, s)
    ensures |s.pool| + |s.requested| + |s.received| + |s.buffer| + |s.instQueue| == cfg.Buckets()
  {
    var all := multiset(s.pool) + multiset(s.requested) + multiset(s.received) + multiset(s.buffer) + multiset(s.instQueue);
    assert |all| == |s.pool| + |s.requested| + |s.received| + |s.buffer| + |s.instQueue|;
    assert |multiset(Range(0, cfg.Buckets()))| == cfg.Buckets();
  }

  /** The instructions in the first n buckets of the instruction queue. */
  function Queued(cfg: Config, s: State, n: nat): nat
    requires Shape(cfg, s) && n <= |s.instQueue|
  {
    if n == 0 then 0 else Queued(cfg, s, n - 1) + |s.buckets[s.instQueue[n - 1]].insts|
  }

  lemma {:induction false} QueuedIs(cfg: Config, s: State, n: nat)
    requires Shape(cfg, s) && n <= |s.instQueue|
    ensures EndAt(cfg, s, n) == |s.issued| + Queued(cfg, s, n)
  {
    if n > 0 { QueuedIs(cfg, s, n - 1); }
  }

  lemma {:induction false} QueuedAtLeast(cfg: Config, s: State, n: nat)
    requires Kept(cfg, s) && n <= |s.instQueue|
    ensures n <= Queued(cfg, s, n)
  {
    if n > 0 {
      assert InLine(cfg, s, n - 1);
      QueuedAtLeast(cfg, s, n - 1);
    }
  }

  /** The room left in the instruction queue and the instructions in it always add up, so it never overflows. */
  lemma RoomConserved(cfg: Config, events: seq<Event>)
    requires cfg.Valid()
    ensures var s := Exec(cfg, events);
      s.space >= 0 && s.space + Queued(cfg, s, |s.instQueue|) == cfg.instQueueSize && |s.instQueue| <= cfg.instQueueSize
  {
    var s := Exec(cfg, events);
    KeptAlways(cfg, events);
    QueuedIs(cfg, s, |s.instQueue|);
    QueuedAtLeast(cfg, s, |s.instQueue|);
  }

  // ---------- what is held back ----------

  lemma {:induction false} IdsAtMost(buckets: seq<Bucket>, all: set<nat>, lo: nat, hi: nat)
    requires (forall b | b in all :: b < |buckets| && lo <= buckets[b].id < hi) && DistinctIds(buckets, all) && lo <= hi
    ensures |all| <= hi - lo
    decreases hi - lo
  {
    if lo == hi {
      if b :| b in all { assert false; }
    } else if b :| b in all && buckets[b].id == hi - 1 {
      IdsAtMost(buckets, all - {b}, lo, hi - 1);
    } else {
      IdsAtMost(buckets, all, lo, hi - 1);
    }
  }

  /** The next bucket in order is always outside, if any is. */
  lemma NextIsOutside(cfg: Config, s: State)
    requires Kept(cfg, s) && s.requested + s.received != {}
    ensures exists b :: b in s.requested && s.buckets[b].id == s.minItem
  {
    var all := s.requested + s.received;
    if b :| b in all && s.buckets[b].id == s.minItem {
      hide Core;
      assert b in s.requested;
    } else {
      var c :| c in all;
      IdsFrom(cfg, s);
      hide Kept, Untouched;
      IdsAtMost(s.buckets, all, s.minItem + 1, |s.starts| - 1);
    }
  }

  lemma IdsFrom(cfg: Config, s: State)
    requires Kept(cfg, s)
    ensures var all := s.requested + s.received;
      && DistinctIds(s.buckets, all) && |all| == |s.starts| - 1 - s.minItem
      && forall b | b in all :: b < |s.buckets| && s.minItem <= s.buckets[b].id < |s.starts| - 1
  {
    var all := s.requested + s.received;
    forall b | b in all ensures s.minItem <= s.buckets[b].id < |s.starts| - 1 { assert Untouched(cfg, s.buckets[b], s.starts, s.minItem); }
  }

  /** A bucket is held back only for an earlier one that is still unanswered: once the cache has answered for all, none is,
      and everything fetched is either issued or in line. */
  lemma HeldBackOnlyForUnanswered(cfg: Config, events: seq<Event>)
    requires cfg.Valid()
    ensures var s := Exec(cfg, events);
      && (s.received != {} ==> exists b :: b in s.requested && s.buckets[b].id == s.minItem)
      && (s.requested == {} ==> s.received == {} && s.minItem == MaxItem(s) && EndAt(cfg, s, |Line(s)|) == Fetched(s))
  {
    var s := Exec(cfg, events);
    KeptAlways(cfg, events);
    hide Exec, Kept;
    if s.received != {} {
      assert s.requested + s.received != {} by { var b :| b in s.received; assert b in s.requested + s.received; }
      NextIsOutside(cfg, s);
    }
    if s.requested == {} { NobodyOutside(cfg, s); }
  }

  lemma NobodyOutside(cfg: Config, s: State)
    requires Kept(cfg, s) && Shape(cfg, s) && s.requested == {}
    ensures s.received == {} && s.minItem == MaxItem(s) && EndAt(cfg, s, |Line(s)|) == Fetched(s)
  {
    if s.requested + s.received != {} { NextIsOutside(cfg, s); }
    assert s.requested + s.received == {};
    assert s.received <= s.requested + s.received;
    hide Conserved, Credits, Room, InLine, Up;
  }

  // ---------- no bucket before its time ----------

  lemma {:induction false} ClearItemsFields(cfg: Config, s: State)
    requires Shape(cfg, s)
    ensures var s' := ClearItems(cfg, s); s'.buckets == s.buckets && s'.now == s.now && s'.instQueue == s.instQueue
    decreases |s.received|
  {
    var b := NextReceived(s, |s.buckets|);
    if b.Some? { ClearItemsFields(cfg, Deliver(cfg, s.(received := s.received - {b.value}), b.value)); }
  }

  lemma {:induction false} IssueUpToFields(cfg: Config, s: State, k: nat)
    requires Shape(cfg, s)
    ensures var s' := IssueUpTo(cfg, s, k).0;
      && s'.now == s.now && (forall b: nat | b < cfg.Buckets() :: s'.buckets[b].clock == s.buckets[b].clock)
      && (forall b | b in s'.instQueue :: b in s.instQueue)
    decreases k
  {
    if k > 0 && s.instQueue != [] && s.buckets[s.instQueue[0]].insts != [] { IssueUpToFields(cfg, IssueOne(cfg, s), k - 1); }
  }

  /** A cycle changes no time stamp, and only the head of the buffer, when due, enters the instruction queue. */
  lemma CycleFields(cfg: Config, s: State, work: bool, n: nat, accepted: nat)
    requires Shape(cfg, s)
    ensures var s' := AdvanceClock(cfg, s, work, n, accepted);
      && s'.now == s.now + 1
      && (forall b: nat | b < cfg.Buckets() :: s'.buckets[b].clock == s.buckets[b].clock)
      && (forall b | b in s'.instQueue && b !in s.instQueue :: s.buckets[b].clock + cfg.length <= s'.now)
  {
    hide IssueUpTo;
    var s1 := if work then Request(cfg, s.(now := s.now + 1), n) else s.(now := s.now + 1);
    assert s1.instQueue == s.instQueue && s1.now == s.now + 1;
    assert forall b: nat | b < cfg.Buckets() :: s1.buckets[b].clock == s.buckets[b].clock;
    hide Request;
    IssueUpToFields(cfg, Decode(cfg, s1), Min(accepted, cfg.issueWidth));
  }

  /** An answer stamps its bucket alone. */
  lemma AnswerFields(cfg: Config, s: State, c: nat)
    requires Shape(cfg, s) && c in s.requested
    ensures var s' := ReadyItem(cfg, s, c);
      && s'.now == s.now && s'.instQueue == s.instQueue && s'.buckets == s.buckets[c := s.buckets[c].(clock := s.now)]
  {
    if s.buckets[c].id == s.minItem { ClearItemsFields(cfg, Deliver(cfg, Answered(s, c), c)); }
  }

  /** Only an answer for it changes a bucket's time stamp. */
  lemma ClockStays(cfg: Config, s: State, e: Event, b: nat)
    requires Shape(cfg, s) && b < cfg.Buckets() && e != Answer(b)
    ensures Step(cfg, s, e).buckets[b].clock == s.buckets[b].clock
  {
    hide AdvanceClock, ReadyItem;
    if Enabled(cfg, s, e) {
      match e {
        case Cycle(work, n, accepted) => CycleFields(cfg, s, work, n, accepted);
        case Answer(c) => AnswerFields(cfg, s, c);
      }
    }
  }

  /** A bucket comes into the instruction queue only from the head of the buffer, when it is due. */
  lemma EntersWhenDue(cfg: Config, s: State, e: Event, b: nat)
    requires Shape(cfg, s) && b < cfg.Buckets() && b !in s.instQueue && b in Step(cfg, s, e).instQueue
    ensures s.buckets[b].clock + cfg.length <= Step(cfg, s, e).now
  {
    hide AdvanceClock, ReadyItem;
    if Enabled(cfg, s, e) {
      match e {
        case Cycle(work, n, accepted) => CycleFields(cfg, s, work, n, accepted);
        case Answer(c) => AnswerFields(cfg, s, c);
      }
    }
  }

  lemma ExecStep(cfg: Config, events: seq<Event>, e: Event)
    requires cfg.Valid()
    ensures Exec(cfg, events + [e]) == Step(cfg, Exec(cfg, events), e)
  {
    assert (events + [e])[..|events|] == events;
  }

  lemma ClockAtAnswer(cfg: Config, s: State, b: nat)
    requires Shape(cfg, s) && b in s.requested
    ensures Step(cfg, s, Answer(b)).buckets[b].clock == s.now
  {
    AnswerFields(cfg, s, b);
    hide ReadyItem;
  }

  lemma {:induction false} ClockSince(cfg: Config, before: seq<Event>, b: nat, between: seq<Event>)
    requires cfg.Valid() && b in Exec(cfg, before).requested && Answer(b) !in between
    ensures Exec(cfg, before + [Answer(b)] + between).buckets[b].clock == Exec(cfg, before).now
  {
    hide Exec, Step;
    var start := before + [Answer(b)];
    if between == [] {
      assert start + between == start;
      ExecStep(cfg, before, Answer(b));
      ClockAtAnswer(cfg, Exec(cfg, before), b);
    } else {
      var rest, e := between[..|between| - 1], between[|between| - 1];
      ClockSince(cfg, before, b, rest);
      assert start + between == start + rest + [e];
      ExecStep(cfg, start + rest, e);
      assert e in between;
      ClockStays(cfg, Exec(cfg, start + rest), e, b);
    }
  }

  /** Whatever happens in between, a bucket reaches the instruction queue no sooner than the pipeline's length after its
      answer. */
  lemma NotBeforeTime(cfg: Config, before: seq<Event>, b: nat, between: seq<Event>, e: Event)
    requires cfg.Valid() && b in Exec(cfg, before).requested && Answer(b) !in between
    requires var s := Exec(cfg, before + [Answer(b)] + between); b !in s.instQueue && b in Step(cfg, s, e).instQueue
    ensures var s := Exec(cfg, before + [Answer(b)] + between);
      Step(cfg, s, e).now >= Exec(cfg, before).now + cfg.length
  {
    ClockSince(cfg, before, b, between);
    EntersWhenDue(cfg, Exec(cfg, before + [Answer(b)] + between), e, b);
  }

  // ---------- the pipeline drains ----------

  /** No bucket was answered in the future. */
  predicate ClocksPast(s: State) {
    forall b | 0 <= b < |s.buckets| :: s.buckets[b].clock <= s.now
  }

  lemma StepClocksPast(cfg: Config, s: State, e: Event)
    requires Shape(cfg, s) && ClocksPast(s)
    ensures ClocksPast(Step(cfg, s, e))
  {
    hide AdvanceClock, ReadyItem;
    if Enabled(cfg, s, e) {
      match e {
        case Cycle(work, n, accepted) => CycleFields(cfg, s, work, n, accepted);
        case Answer(c) => AnswerFields(cfg, s, c);
      }
    }
  }

  lemma {:induction false} ClocksPastAlways(cfg: Config, events: seq<Event>)
    requires cfg.Valid()
    ensures ClocksPast(Exec(cfg, events))
  {
    if events != [] {
      ClocksPastAlways(cfg, events[..|events| - 1]);
      StepClocksPast(cfg, Exec(cfg, events[..|events| - 1]), events[|events| - 1]);
    }
  }

  /** The instructions that have been answered in order: what was issued and what stands in line. */
  function Reached(cfg: Config, s: State): nat
    requires Shape(cfg, s)
  {
    EndAt(cfg, s, |Line(s)|)
  }

  lemma ReachedIs(cfg: Config, s: State)
    requires Kept(cfg, s)
    ensures s.minItem < |s.starts| && Reached(cfg, s) == s.starts[s.minItem] && |s.issued| <= Reached(cfg, s) <= Fetched(s)
    ensures |s.issued| < Reached(cfg, s) ==> Line(s) != []
  {
    hide Conserved, Requests, Credits, NextUnanswered, Room, InLine;
    EndGrows(cfg, s, |Line(s)|);
  }

  lemma StartsUp(cfg: Config, s: State, i: nat, j: nat)
    requires Kept(cfg, s) && i <= j < |s.starts|
    ensures s.starts[i] <= s.starts[j]
  {
  }

  lemma {:induction false} ClearItemsReaches(cfg: Config, s: State)
    requires Shape(cfg, s)
    ensures var s' := ClearItems(cfg, s);
      s'.starts == s.starts && s'.minItem >= s.minItem && s'.issued == s.issued && s.buffer <= s'.buffer
    decreases |s.received|
  {
    var b := NextReceived(s, |s.buckets|);
    if b.Some? { ClearItemsReaches(cfg, Deliver(cfg, s.(received := s.received - {b.value}), b.value)); }
  }

  /** An answer only adds to the end of the line. */
  lemma AnswerReaches(cfg: Config, s: State, b: nat)
    requires Shape(cfg, s) && b in s.requested
    ensures var s' := ReadyItem(cfg, s, b);
      s'.starts == s.starts && s'.minItem >= s.minItem && s'.issued == s.issued && s.buffer <= s'.buffer
  {
    if s.buckets[b].id == s.minItem { ClearItemsReaches(cfg, Deliver(cfg, Answered(s, b), b)); }
  }

  lemma {:induction false} IssueUpToReaches(cfg: Config, s: State, k: nat)
    requires Shape(cfg, s)
    ensures var s' := IssueUpTo(cfg, s, k).0; s'.starts == s.starts && s'.minItem == s.minItem && |s'.issued| >= |s.issued|
    decreases k
  {
    if k > 0 && s.instQueue != [] && s.buckets[s.instQueue[0]].insts != [] { IssueUpToReaches(cfg, IssueOne(cfg, s), k - 1); }
  }

  lemma CycleReaches(cfg: Config, s: State, work: bool, n: nat, accepted: nat)
    requires Shape(cfg, s)
    ensures var s' := AdvanceClock(cfg, s, work, n, accepted);
      && s.starts <= s'.starts && s'.minItem == s.minItem && |s'.issued| >= |s.issued|
      && (!work ==> s'.starts == s.starts)
  {
    hide IssueUpTo;
    var s1 := Asked(cfg, s, work, n);
    IssueUpToReaches(cfg, Decode(cfg, s1), Min(accepted, cfg.issueWidth));
  }

  lemma StepReaches(cfg: Config, s: State, e: Event)
    requires Shape(cfg, s) && Kept(cfg, s)
    ensures var s' := Step(cfg, s, e);
      && Reached(cfg, s') >= Reached(cfg, s) && |s'.issued| >= |s.issued| && s.starts <= s'.starts
      && ((e.Cycle? ==> !e.work) ==> s'.starts == s.starts)
  {
    hide Kept, AdvanceClock, ReadyItem, Reached;
    var s' := Step(cfg, s, e);
    StepKept(cfg, s, e);
    ReachedIs(cfg, s);
    ReachedIs(cfg, s');
    if Enabled(cfg, s, e) {
      match e {
        case Cycle(work, n, accepted) => CycleReaches(cfg, s, work, n, accepted);
        case Answer(c) => AnswerReaches(cfg, s, c);
      }
    }
    StartsUp(cfg, s', s.minItem, s'.minItem);
  }

  /** The cycles before the head of the buffer is due, if that is what keeps the reorder buffer waiting. */
  function Wait(cfg: Config, s: State): nat
    requires Shape(cfg, s)
  {
    if s.instQueue == [] && s.buffer != [] && !HeadDue(cfg, s) then s.buckets[s.buffer[0]].clock + cfg.length - s.now else 0
  }

  lemma WaitAtMost(cfg: Config, s: State)
    requires Shape(cfg, s) && ClocksPast(s)
    ensures Wait(cfg, s) <= cfg.length
  {
  }

  lemma AnswerKeepsWait(cfg: Config, s: State, b: nat)
    requires Kept(cfg, s) && b in s.requested && |s.issued| < Reached(cfg, s)
    ensures Wait(cfg, ReadyItem(cfg, s, b)) <= Wait(cfg, s)
  {
    ReachedIs(cfg, s);
    IsOutside(cfg, s, b);
    AnswerFields(cfg, s, b);
    AnswerReaches(cfg, s, b);
    hide Kept, ReadyItem, Reached;
    if s.buffer != [] { assert s.buffer[0] in Line(s); }
  }

  // ---------- one cycle ----------

  /** A cycle up to the point where the fetch has been made. */
  function Asked(cfg: Config, s: State, work: bool, n: nat): (s': State)
    requires Shape(cfg, s)
    ensures Shape(cfg, s')
  {
    if work then Request(cfg, s.(now := s.now + 1), n) else s.(now := s.now + 1)
  }

  lemma AskedKept(cfg: Config, s: State, work: bool, n: nat)
    requires Kept(cfg, s) && n <= cfg.fetchWidth
    ensures Kept(cfg, Asked(cfg, s, work, n))
  {
    hide Conserved, Requests, Ordered, Up, Credits, NextUnanswered, Room, Request;
    TimePasses(cfg, s);
    if work { RequestKept(cfg, s.(now := s.now + 1), n); }
  }

  /** A fetch leaves the line alone. */
  lemma AskedFields(cfg: Config, s: State, work: bool, n: nat)
    requires Kept(cfg, s)
    ensures var s1 := Asked(cfg, s, work, n);
      && s1.now == s.now + 1 && s1.buffer == s.buffer && s1.instQueue == s.instQueue && s1.issued == s.issued && s1.space == s.space
      && (forall b: nat | b < cfg.Buckets() :: s1.buckets[b].clock == s.buckets[b].clock)
  {
  }

  lemma {:induction false} IssueUpToIssues(cfg: Config, s: State, k: nat)
    requires Core(cfg, s) && s.instQueue != [] && 0 < k
    ensures |IssueUpTo(cfg, s, k).0.issued| > |s.issued|
  {
    assert InLine(cfg, s, 0) && Line(s)[0] == s.instQueue[0];
    hide Core;
    IssueUpToReaches(cfg, IssueOne(cfg, s), k - 1);
  }

  /** With an empty instruction queue there is room for a whole bucket. */
  lemma RoomWhenEmpty(cfg: Config, s: State)
    requires Kept(cfg, s) && s.instQueue == []
    ensures s.space >= cfg.fetchWidth
  {
  }

  lemma DecodeIssued(cfg: Config, s: State)
    requires Shape(cfg, s)
    ensures Decode(cfg, s).issued == s.issued
    ensures Decode(cfg, s).instQueue == [] ==> s.instQueue == [] && (s.space >= cfg.fetchWidth ==> Decode(cfg, s) == s && !HeadDue(cfg, s))
  {
  }

  /** When the back end takes instructions, something in line is issued or the wait gets shorter. */
  lemma CycleDrains(cfg: Config, s: State, work: bool, n: nat, accepted: nat)
    requires Shape(cfg, s) && Kept(cfg, s) && |s.issued| < Reached(cfg, s) && n <= cfg.fetchWidth && 0 < accepted && 0 < cfg.issueWidth
    ensures var s' := AdvanceClock(cfg, s, work, n, accepted);
      |s'.issued| > |s.issued| || (|s'.issued| == |s.issued| && Wait(cfg, s') < Wait(cfg, s))
  {
    hide Core, Asked, Decode, Reached, AdvanceClock, NextUnanswered, Room;
    var s1 := Asked(cfg, s, work, n);
    ReachedIs(cfg, s);
    AskedKept(cfg, s, work, n);
    AskedFields(cfg, s, work, n);
    DecodeKept(cfg, s1);
    DecodeIssued(cfg, s1);
    if Decode(cfg, s1).instQueue != [] {
      IssueUpToIssues(cfg, Decode(cfg, s1), Min(accepted, cfg.issueWidth));
    } else {
      RoomWhenEmpty(cfg, s1);
      assert Issue(cfg, s1, accepted) == s1;
      assert s1.buffer[0] < cfg.Buckets();
    }
    CycleIs(cfg, s, work, n, accepted);
  }

  lemma CycleIs(cfg: Config, s: State, work: bool, n: nat, accepted: nat)
    requires Shape(cfg, s)
    ensures AdvanceClock(cfg, s, work, n, accepted) == Issue(cfg, Decode(cfg, Asked(cfg, s, work, n)), accepted)
    ensures var s1 := Decode(cfg, Asked(cfg, s, work, n));
      Issue(cfg, s1, accepted).issued == IssueUpTo(cfg, s1, Min(accepted, cfg.issueWidth)).0.issued
  {
  }

  // ---------- along a run ----------

  /** A bound on the cycles until instruction x is issued. */
  function Measure(cfg: Config, s: State, x: nat): int
    requires Shape(cfg, s)
  {
    if x < |s.issued| then 0 else (x + 1 - |s.issued|) * (cfg.length + 1) + Wait(cfg, s)
  }

  lemma MeasureLess(left: int, left': int, length: nat, wait: nat, wait': nat)
    requires left' < left || (left' == left && wait' < wait)
    requires wait' <= length
    ensures left' * (length + 1) + wait' < left * (length + 1) + wait
  {
    if left' < left {
      assert (left - 1) * (length + 1) == left * (length + 1) - (length + 1);
      MulMonotone(left', left - 1, length + 1);
    }
  }

  /** A cycle in which the back end takes at least one instruction if any is offered; or an answer. */
  predicate Takes(cfg: Config, e: Event) {
    e.Cycle? ==> e.n <= cfg.fetchWidth && 0 < e.accepted
  }

  lemma MeasureCycle(cfg: Config, s: State, x: nat, e: Event)
    requires Shape(cfg, s) && Kept(cfg, s) && ClocksPast(s) && x < Reached(cfg, s) && e.Cycle? && Takes(cfg, e) && 0 < cfg.issueWidth
    ensures var s' := Step(cfg, s, e);
      |s'.issued| > x || Measure(cfg, s', x) < Measure(cfg, s, x)
  {
    hide Kept, AdvanceClock, Wait, Reached, ClocksPast;
    var s' := Step(cfg, s, e);
    StepReaches(cfg, s, e);
    if |s'.issued| <= x {
      StepClocksPast(cfg, s, e);
      WaitAtMost(cfg, s');
      CycleDrains(cfg, s, e.work, e.n, e.accepted);
      MeasureLess(x + 1 - |s.issued|, x + 1 - |s'.issued|, cfg.length, Wait(cfg, s), Wait(cfg, s'));
    }
  }

  lemma MeasureAnswer(cfg: Config, s: State, x: nat, e: Event)
    requires Shape(cfg, s) && Kept(cfg, s) && x < Reached(cfg, s) && e.Answer?
    ensures var s' := Step(cfg, s, e);
      |s'.issued| > x || Measure(cfg, s', x) <= Measure(cfg, s, x)
  {
    hide Kept, ReadyItem, Wait, Reached;
    var s' := Step(cfg, s, e);
    StepReaches(cfg, s, e);
    if Enabled(cfg, s, e) && |s'.issued| <= x {
      AnswerReaches(cfg, s, e.b);
      AnswerKeepsWait(cfg, s, e.b);
    }
  }

  function Cycles(events: seq<Event>): nat {
    if events == [] then 0
    else Cycles(events[..|events| - 1]) + (if events[|events| - 1].Cycle? then 1 else 0)
  }

  lemma {:induction false} MeasureAlong(cfg: Config, before: seq<Event>, after: seq<Event>, x: nat)
    requires cfg.Valid() && 0 < cfg.issueWidth && x < Reached(cfg, Exec(cfg, before))
    requires forall k | 0 <= k < |after| :: Takes(cfg, after[k])
    ensures var s, s' := Exec(cfg, before), Exec(cfg, before + after);
      && Reached(cfg, s') >= Reached(cfg, s)
      && (|s'.issued| > x || Measure(cfg, s', x) <= Measure(cfg, s, x) - Cycles(after))
  {
    hide Kept, ClocksPast, Measure, Reached, Exec, Step;
    if after == [] {
      assert before + after == before;
    } else {
      var rest, e := after[..|after| - 1], after[|after| - 1];
      MeasureAlong(cfg, before, rest, x);
      var mid := Exec(cfg, before + rest);
      assert before + after == before + rest + [e];
      ExecStep(cfg, before + rest, e);
      KeptAlways(cfg, before + rest);
      ClocksPastAlways(cfg, before + rest);
      StepReaches(cfg, mid, e);
      if e.Cycle? { MeasureCycle(cfg, mid, x, e); } else { MeasureAnswer(cfg, mid, x, e); }
    }
  }

  /** The cycles so many instructions take at most: length + 1 for each, and one length more. */
  function TimeFor(cfg: Config, count: int): int {
    count * (cfg.length + 1) + cfg.length
  }

  lemma MeasureBounds(cfg: Config, s: State, x: nat)
    requires Shape(cfg, s) && ClocksPast(s) && x >= |s.issued|
    ensures 0 < Measure(cfg, s, x) <= TimeFor(cfg, x + 1 - |s.issued|)
  {
    WaitAtMost(cfg, s);
    MulMonotone(1, x + 1 - |s.issued|, cfg.length + 1);
  }

  /** While fetching goes on and the cache answers as it likes: an instruction that has been answered, and all before it,
      is issued within length + 1 cycles for each instruction up to it that is not, and one length more, if the back end
      takes at least one instruction whenever asked. */
  lemma IssuedInTime(cfg: Config, before: seq<Event>, after: seq<Event>, x: nat)
    requires cfg.Valid() && 0 < cfg.issueWidth && x < Reached(cfg, Exec(cfg, before))
    requires forall k | 0 <= k < |after| :: Takes(cfg, after[k])
    requires Cycles(after) >= TimeFor(cfg, x + 1 - |Exec(cfg, before).issued|)
    ensures var issued := Exec(cfg, before + after).issued; x < |issued| && issued[x] == x
  {
    hide ClocksPast, Measure, Reached, Exec, TimeFor;
    var s, s' := Exec(cfg, before), Exec(cfg, before + after);
    MeasureAlong(cfg, before, after, x);
    InOrderDelivery(cfg, before + after);
    ClocksPastAlways(cfg, before);
    ClocksPastAlways(cfg, before + after);
    IssuedGrowsAlong(cfg, before, after);
    if x >= |s'.issued| {
      MeasureBounds(cfg, s', x);
      MeasureBounds(cfg, s, x);
    }
  }

  /** No cycle fetches anything. */
  predicate NoFetch(events: seq<Event>) {
    forall k | 0 <= k < |events| && events[k].Cycle? :: !events[k].work
  }

  lemma {:induction false} IssuedGrowsAlong(cfg: Config, before: seq<Event>, after: seq<Event>)
    requires cfg.Valid()
    ensures |Exec(cfg, before + after).issued| >= |Exec(cfg, before).issued|
    ensures NoFetch(after) ==> Exec(cfg, before + after).starts == Exec(cfg, before).starts
  {
    hide Kept, Exec, Step;
    if after == [] {
      assert before + after == before;
    } else {
      var rest, e := after[..|after| - 1], after[|after| - 1];
      IssuedGrowsAlong(cfg, before, rest);
      assert before + after == before + rest + [e];
      ExecStep(cfg, before + rest, e);
      KeptAlways(cfg, before + rest);
      assert NoFetch(after) ==> NoFetch(rest) && (e.Cycle? ==> !e.work);
      hide NoFetch;
      StepReaches(cfg, Exec(cfg, before + rest), e);
    }
  }

  lemma RangePrefix(m: nat, n: nat)
    requires m <= n
    ensures Range(0, m) <= Range(0, n)
  {
  }

  /** Once the cache has answered every request, everything fetched so far is issued within length + 1 cycles for each
      instruction not issued yet, and one length more; if nothing more is fetched meanwhile, that is all. */
  lemma EverythingIsIssued(cfg: Config, before: seq<Event>, after: seq<Event>)
    requires cfg.Valid() && 0 < cfg.issueWidth && Exec(cfg, before).requested == {}
    requires forall k | 0 <= k < |after| :: Takes(cfg, after[k])
    requires var s := Exec(cfg, before); Cycles(after) >= TimeFor(cfg, Fetched(s) - |s.issued|)
    ensures var s, s' := Exec(cfg, before), Exec(cfg, before + after);
      && Range(0, Fetched(s)) <= s'.issued
      && (NoFetch(after) ==> s'.issued == Range(0, Fetched(s)))
  {
    hide Exec, Range, NoFetch, TimeFor, Takes, Cycles, Fetched;
    EnoughIssued(cfg, before, after);
    IssuedGrowsAlong(cfg, before, after);
    IssuedIs(cfg, before + after);
    SameFetched(Exec(cfg, before), Exec(cfg, before + after));
    RangePrefix(Fetched(Exec(cfg, before)), |Exec(cfg, before + after).issued|);
  }

  lemma SameFetched(s: State, s': State)
    requires s.starts != [] && s'.starts != []
    ensures s'.starts == s.starts ==> Fetched(s') == Fetched(s)
  {
  }

  lemma EnoughIssued(cfg: Config, before: seq<Event>, after: seq<Event>)
    requires cfg.Valid() && 0 < cfg.issueWidth && Exec(cfg, before).requested == {}
    requires forall k | 0 <= k < |after| :: Takes(cfg, after[k])
    requires var s := Exec(cfg, before); Cycles(after) >= TimeFor(cfg, Fetched(s) - |s.issued|)
    ensures Fetched(Exec(cfg, before)) <= |Exec(cfg, before + after).issued|
  {
    hide Exec, Reached, Range, TimeFor, Takes, Cycles, Fetched;
    var s := Exec(cfg, before);
    AllReached(cfg, before);
    IssuedGrowsAlong(cfg, before, after);
    if |s.issued| < Fetched(s) {
      var x: nat := Fetched(s) - 1;
      assert x + 1 - |s.issued| == Fetched(s) - |s.issued|;
      IssuedInTime(cfg, before, after, x);
    }
  }

  lemma AllReached(cfg: Config, events: seq<Event>)
    requires cfg.Valid() && Exec(cfg, events).requested == {}
    ensures Reached(cfg, Exec(cfg, events)) == Fetched(Exec(cfg, events))
  {
    HeldBackOnlyForUnanswered(cfg, events);
  }

  lemma IssuedIs(cfg: Config, events: seq<Event>)
    requires cfg.Valid()
    ensures var s := Exec(cfg, events); s.issued == Range(0, |s.issued|) && |s.issued| <= Fetched(s)
  {
    InOrderDelivery(cfg, events);
  }
}
