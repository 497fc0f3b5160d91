/**
 What one clock cycle of the fetch pipeline does, exactly, in every run: when it fetches and
 what, when a bucket moves on, and how many instructions are issued. And how many requests
 can be under way at once, and when a bucket is ever held back.
 */
module FetchCycles {
  import opened Fetch
  import opened FetchRuns

  // ---------- fetching ----------

  /** Fewer requests than allowed are unanswered, and not every bucket is in use. */
  predicate CanFetch(cfg: Config, s: State) {
    |s.requested| < cfg.maxReqs && |s.requested| + |s.received| + |s.buffer| + |s.instQueue| < cfg.length + 1 + cfg.maxReqs
  }

  /** Bucket b, which was in no use, has been requested with the next n instructions. */
  predicate FetchedInto(s: State, s': State, n: nat, b: nat)
    requires s.starts != []
  {
    && b in s.pool && b < |s'.buckets| && s'.requested == s.requested + {b} && b !in s.requested
    && s'.buckets[b].id == MaxItem(s) && s'.buckets[b].insts == Range(Fetched(s), Fetched(s) + n)
  }

  lemma RequestableIs(cfg: Config, s: State)
    requires Kept(cfg, s)
    ensures Requestable(s) <==> CanFetch(cfg, s)
  {
    PlacesAddUp(cfg, s);
    hide Conserved, Outside, Ordered, Up, Room;
  }

  /** A request is made exactly if one can be: it takes the next n instructions into a free bucket. */
  lemma RequestExactly(cfg: Config, s: State, n: nat)
    requires Kept(cfg, s) && Shape(cfg, s)
    ensures var s' := Request(cfg, s, n);
      && (!CanFetch(cfg, s) ==> s' == s)
      && (CanFetch(cfg, s) ==> s'.starts == s.starts + [Fetched(s) + n] && exists b :: FetchedInto(s, s', n, b))
      && s'.received == s.received && s'.buffer == s.buffer && s'.instQueue == s.instQueue
      && s'.now == s.now && s'.space == s.space && s'.issued == s.issued && s'.minItem == s.minItem
  {
    RequestableIs(cfg, s);
    hide CanFetch, FetchedInto, Kept;
    if Requestable(s) { RequestTakes(cfg, s, n); }
  }

  lemma RequestTakes(cfg: Config, s: State, n: nat)
    requires Kept(cfg, s) && Requestable(s)
    ensures FetchedInto(s, Request(cfg, s, n), n, s.pool[|s.pool| - 1])
  {
    InPool(cfg, s, s.pool[|s.pool| - 1]);
    hide Conserved, Outside, Ordered, Up, Room, Credits;
  }

  // ---------- moving on ----------

  /** The instructions in the instruction queue. */
  function InQueue(cfg: Config, s: State): nat
    requires Shape(cfg, s)
  {
    Queued(cfg, s, |s.instQueue|)
  }

  /** The instruction queue could take a whole bucket more, and the first of the buffer was answered the pipeline's length
      ago by the cycle that begins at `now`. */
  predicate MovesOn(cfg: Config, s: State, now: nat)
    requires Shape(cfg, s)
  {
    && InQueue(cfg, s) + cfg.fetchWidth <= cfg.instQueueSize
    && s.buffer != [] && now >= s.buckets[s.buffer[0]].clock + cfg.length
  }

  lemma {:induction false} QueuedSame(cfg: Config, s: State, s': State, n: nat)
    requires Shape(cfg, s) && Shape(cfg, s') && n <= |s.instQueue| && s.instQueue <= s'.instQueue
    requires forall b | b in s.instQueue :: s'.buckets[b].insts == s.buckets[b].insts
    ensures n <= |s'.instQueue| && Queued(cfg, s', n) == Queued(cfg, s, n)
  {
    if n > 0 { QueuedSame(cfg, s, s', n - 1); }
  }

  lemma SpaceIs(cfg: Config, s: State)
    requires Kept(cfg, s)
    ensures s.space == cfg.instQueueSize - InQueue(cfg, s)
  {
    hide Conserved, Outside, Ordered, Up;
    QueuedIs(cfg, s, |s.instQueue|);
  }

  lemma DecodeExactly(cfg: Config, s: State)
    requires Kept(cfg, s)
    ensures var s' := Decode(cfg, s);
      && (!MovesOn(cfg, s, s.now) ==> s' == s)
      && (MovesOn(cfg, s, s.now) ==>
            && s'.buffer == s.buffer[1..] && s'.instQueue == s.instQueue + [s.buffer[0]]
            && InQueue(cfg, s') == InQueue(cfg, s) + |s.buckets[s.buffer[0]].insts|)
      && s'.requested == s.requested && s'.received == s.received && s'.starts == s.starts && s'.buckets == s.buckets
      && s'.now == s.now && s'.issued == s.issued && s'.minItem == s.minItem && s'.pool == s.pool
  {
    SpaceIs(cfg, s);
    hide Kept;
    var s' := Decode(cfg, s);
    if MovesOn(cfg, s, s.now) { QueuedSame(cfg, s, s', |s.instQueue|); }
  }

  // ---------- issuing ----------

  lemma {:induction false} IssueUpToKeeps(cfg: Config, s: State, k: nat)
    requires Shape(cfg, s)
    ensures var s' := IssueUpTo(cfg, s, k).0;
      && s'.requested == s.requested && s'.received == s.received && s'.starts == s.starts && s'.buffer == s.buffer
      && s'.now == s.now && s'.minItem == s.minItem
      && forall b | 0 <= b < |s.buckets| :: s'.buckets[b].id == s.buckets[b].id && s'.buckets[b].clock == s.buckets[b].clock
    decreases k
  {
    if k > 0 && s.instQueue != [] && s.buckets[s.instQueue[0]].insts != [] { IssueUpToKeeps(cfg, IssueOne(cfg, s), k - 1); }
  }

  /** x is the least of the three. */
  predicate Least3(x: int, a: int, b: int, c: int) {
    x <= a && x <= b && x <= c && (x == a || x == b || x == c)
  }

  /** Exactly as many instructions are issued as the width, the back end and the queue allow. */
  lemma IssueExactly(cfg: Config, s: State, accepted: nat)
    requires Kept(cfg, s)
    ensures var s' := Issue(cfg, s, accepted);
      && Kept(cfg, s')
      && Least3(|s'.issued| - |s.issued|, cfg.issueWidth, accepted, InQueue(cfg, s))
      && InQueue(cfg, s') == InQueue(cfg, s) - (|s'.issued| - |s.issued|)
      && s'.requested == s.requested && s'.received == s.received && s'.starts == s.starts && s'.buffer == s.buffer
      && s'.now == s.now && s'.minItem == s.minItem
      && forall b | 0 <= b < |s.buckets| :: s'.buckets[b].id == s.buckets[b].id && s'.buckets[b].clock == s.buckets[b].clock
  {
    hide Conserved, Outside, Ordered, Up, Room, IssueUpTo, NextUnanswered, Credits;
    var k := Min(accepted, cfg.issueWidth);
    IssueKept(cfg, s, accepted);
    IssueUpToCore(cfg, s, k);
    IssueUpToKeeps(cfg, s, k);
    var (s1, n) := IssueUpTo(cfg, s, k);
    QueuedIs(cfg, s, |s.instQueue|);
    QueuedIs(cfg, s1, |s1.instQueue|);
    hide Core, Kept;
    var s' := Issue(cfg, s, accepted);
    QueuedSame(cfg, s1, s', |s1.instQueue|);
  }

  // ---------- the cycle ----------

  /** In every run, a cycle with work fetches exactly n instructions in a new request if and only if fewer requests than
      allowed are unanswered and not every bucket is in use; otherwise, and without work, it fetches nothing. */
  lemma FetchesExactly(cfg: Config, events: seq<Event>, work: bool, n: nat, accepted: nat)
    requires cfg.Valid() && n <= cfg.fetchWidth
    ensures var s, s' := Exec(cfg, events), Exec(cfg, events + [Cycle(work, n, accepted)]);
      && s'.now == s.now + 1 && s'.received == s.received && s'.minItem == s.minItem
      && (work && CanFetch(cfg, s) ==> s'.starts == s.starts + [Fetched(s) + n] && exists b :: FetchedInto(s, s', n, b))
      && (!(work && CanFetch(cfg, s)) ==> s'.starts == s.starts && s'.requested == s.requested)
  {
    hide Exec, Kept, AdvanceClock, CanFetch, FetchedInto;
    KeptAlways(cfg, events);
    ExecStep(cfg, events, Cycle(work, n, accepted));
    CycleFetches(cfg, Exec(cfg, events), work, n, accepted);
  }

  lemma CycleFetches(cfg: Config, s: State, work: bool, n: nat, accepted: nat)
    requires Kept(cfg, s) && n <= cfg.fetchWidth && Shape(cfg, s)
    ensures var s' := AdvanceClock(cfg, s, work, n, accepted);
      && s'.now == s.now + 1 && s'.received == s.received && s'.minItem == s.minItem
      && (work && CanFetch(cfg, s) ==> s'.starts == s.starts + [Fetched(s) + n] && exists b :: FetchedInto(s, s', n, b))
      && (!(work && CanFetch(cfg, s)) ==> s'.starts == s.starts && s'.requested == s.requested)
  {
    hide Kept, Request, Decode, Issue;
    var s0 := s.(now := s.now + 1);
    TimePasses(cfg, s);
    AskedKept(cfg, s, work, n);
    RequestExactly(cfg, s0, n);
    var s1 := Asked(cfg, s, work, n);
    DecodeKept(cfg, s1);
    DecodeExactly(cfg, s1);
    IssueExactly(cfg, Decode(cfg, s1), accepted);
    var s' := Issue(cfg, Decode(cfg, s1), accepted);
    if work && CanFetch(cfg, s) {
      var b :| FetchedInto(s0, s1, n, b);
      StillFetched(cfg, s, s', n, b);
    }
  }

  /** Outside, a bucket's instructions stay as its request says. */
  lemma StillFetched(cfg: Config, s: State, s': State, n: nat, b: nat)
    requires Kept(cfg, s') && s.starts != [] && s'.starts == s.starts + [Fetched(s) + n]
    requires b in s.pool && b < |s'.buckets| && s'.requested == s.requested + {b} && b !in s.requested && s'.buckets[b].id == MaxItem(s)
    ensures FetchedInto(s, s', n, b)
  {
    assert Untouched(cfg, s'.buckets[b], s'.starts, s'.minItem);
    hide Core;
  }

  /** In every run, a cycle moves the first bucket of the buffer on if and only if it has been in the pipeline for its
      length and the instruction queue could take a whole bucket more; and it issues exactly the least of the issue width,
      what the back end accepts, and what the queue then holds. */
  lemma IssuesExactly(cfg: Config, events: seq<Event>, work: bool, n: nat, accepted: nat)
    requires cfg.Valid() && n <= cfg.fetchWidth
    ensures var s, s' := Exec(cfg, events), Exec(cfg, events + [Cycle(work, n, accepted)]);
      var moves := MovesOn(cfg, s, s.now + 1);
      var held := InQueue(cfg, s) + if moves then |s.buckets[s.buffer[0]].insts| else 0;
      && s'.buffer == (if moves then s.buffer[1..] else s.buffer)
      && Least3(|s'.issued| - |s.issued|, cfg.issueWidth, accepted, held)
      && InQueue(cfg, s') == held - (|s'.issued| - |s.issued|)
  {
    hide Exec, Kept, AdvanceClock, InQueue, Least3;
    KeptAlways(cfg, events);
    ExecStep(cfg, events, Cycle(work, n, accepted));
    CycleIssues(cfg, Exec(cfg, events), work, n, accepted);
  }

  lemma AskedQueue(cfg: Config, s: State, work: bool, n: nat)
    requires Kept(cfg, s)
    ensures var s1 := Asked(cfg, s, work, n);
      && s1.now == s.now + 1 && s1.buffer == s.buffer && s1.instQueue == s.instQueue && s1.issued == s.issued
      && InQueue(cfg, s1) == InQueue(cfg, s) && (MovesOn(cfg, s1, s1.now) <==> MovesOn(cfg, s, s.now + 1))
      && (s.buffer != [] ==> s1.buckets[s.buffer[0]].insts == s.buckets[s.buffer[0]].insts)
  {
    var s1 := Asked(cfg, s, work, n);
    AskedFields(cfg, s, work, n);
    forall b | b in Line(s) ensures s1.buckets[b].insts == s.buckets[b].insts {
      if work && Requestable(s) { InPool(cfg, s, s.pool[|s.pool| - 1]); }
    }
    hide Kept, Asked;
    assert forall b | b in s.instQueue :: b in Line(s);
    assert s.buffer != [] ==> s.buffer[0] in Line(s);
    QueuedSame(cfg, s, s1, |s.instQueue|);
  }

  lemma CycleIssues(cfg: Config, s: State, work: bool, n: nat, accepted: nat)
    requires Kept(cfg, s) && n <= cfg.fetchWidth && Shape(cfg, s)
    ensures var s' := AdvanceClock(cfg, s, work, n, accepted);
      var moves := MovesOn(cfg, s, s.now + 1);
      var held := InQueue(cfg, s) + if moves then |s.buckets[s.buffer[0]].insts| else 0;
      && s'.buffer == (if moves then s.buffer[1..] else s.buffer)
      && Least3(|s'.issued| - |s.issued|, cfg.issueWidth, accepted, held)
      && InQueue(cfg, s') == held - (|s'.issued| - |s.issued|)
  {
    hide Kept, Asked, Decode, Issue, Least3, InQueue, AdvanceClock, HeadDue;
    var s1 := Asked(cfg, s, work, n);
    AskedKept(cfg, s, work, n);
    AskedQueue(cfg, s, work, n);
    DecodeKept(cfg, s1);
    DecodeExactly(cfg, s1);
    IssueExactly(cfg, Decode(cfg, s1), accepted);
    CycleIs(cfg, s, work, n, accepted);
  }

  // ---------- what is taken in ----------

  /** In every run, what was issued or stands in line is exactly what was fetched before the first request that the cache
      has not answered; so an answer takes in its own bucket, and those behind it, exactly as far as nothing earlier is
      missing. */
  lemma TakenInExactly(cfg: Config, events: seq<Event>)
    requires cfg.Valid()
    ensures var s := Exec(cfg, events);
      && (forall b | b in s.requested :: s.minItem <= s.buckets[b].id)
      && (if s.requested == {} then s.minItem == MaxItem(s) else exists b :: b in s.requested && s.buckets[b].id == s.minItem)
      && s.minItem < |s.starts| && EndAt(cfg, s, |Line(s)|) == s.starts[s.minItem]
  {
    var s := Exec(cfg, events);
    KeptAlways(cfg, events);
    hide Exec;
    HeldBackOnlyForUnanswered(cfg, events);
    if s.requested != {} {
      assert s.requested + s.received != {} by { var b :| b in s.requested; assert b in s.requested + s.received; }
      NextIsOutside(cfg, s);
    }
    forall b | b in s.requested ensures s.minItem <= s.buckets[b].id {
      assert b in s.requested + s.received && Untouched(cfg, s.buckets[b], s.starts, s.minItem);
    }
  }

  // ---------- how many requests can be under way ----------

  /** k requests unanswered, and nothing anywhere else. */
  predicate OnlyRequested(cfg: Config, s: State, k: nat) {
    |s.requested| == k && s.received == {} && s.buffer == [] && s.instQueue == [] && s.minItem == 0 && |s.starts| == k + 1
  }

  /** With nothing in line, a cycle issues nothing. */
  lemma NothingMoves(cfg: Config, events: seq<Event>, n: nat)
    requires cfg.Valid() && n <= cfg.fetchWidth && Line(Exec(cfg, events)) == []
    ensures Line(Exec(cfg, events + [Cycle(true, n, 0)])) == []
  {
    hide Exec, Least3, InQueue, Kept, Queued;
    var s, s' := Exec(cfg, events), Exec(cfg, events + [Cycle(true, n, 0)]);
    assert s.buffer == [] && s.instQueue == [];
    IssuesExactly(cfg, events, true, n, 0);
    KeptAlways(cfg, events + [Cycle(true, n, 0)]);
    QueueEmpty(cfg, s);
    FewIssued(|s'.issued| - |s.issued|, cfg.issueWidth);
    NoneQueued(cfg, s');
  }

  lemma QueueEmpty(cfg: Config, s: State)
    requires Shape(cfg, s) && s.instQueue == []
    ensures InQueue(cfg, s) == 0
  {
  }

  lemma NoneQueued(cfg: Config, s: State)
    requires Kept(cfg, s) && Shape(cfg, s) && InQueue(cfg, s) == 0
    ensures s.instQueue == []
  {
    hide Kept, Queued;
    QueuedAtLeast(cfg, s, |s.instQueue|);
  }

  lemma FewIssued(x: int, width: nat)
    requires Least3(x, width, 0, 0)
    ensures x == 0
  {
  }

  /** For every configuration there is a run that has all the requests allowed unanswered at once. */
  lemma {:induction false} ManyUnanswered(cfg: Config, k: nat, n: nat) returns (events: seq<Event>)
    requires cfg.Valid() && k <= cfg.maxReqs && n <= cfg.fetchWidth
    ensures OnlyRequested(cfg, Exec(cfg, events), k)
  {
    hide Exec, CanFetch, FetchedInto, OnlyRequested, Line;
    if k == 0 {
      events := [];
      StartEmpty(cfg);
    } else {
      var before := ManyUnanswered(cfg, k - 1, n);
      events := before + [Cycle(true, n, 0)];
      FetchesExactly(cfg, before, true, n, 0);
      LineEmpty(cfg, Exec(cfg, before), k - 1);
      NothingMoves(cfg, before, n);
      OneMore(cfg, Exec(cfg, before), Exec(cfg, events), k, n);
    }
  }

  lemma StartEmpty(cfg: Config)
    requires cfg.Valid()
    ensures OnlyRequested(cfg, Exec(cfg, []), 0)
  {
  }

  lemma LineEmpty(cfg: Config, s: State, k: nat)
    requires OnlyRequested(cfg, s, k)
    ensures Line(s) == []
  {
  }

  lemma OneMore(cfg: Config, s: State, s': State, k: nat, n: nat)
    requires 0 < k <= cfg.maxReqs && OnlyRequested(cfg, s, k - 1) && Line(s') == []
    requires s'.received == s.received && s'.minItem == s.minItem
    requires CanFetch(cfg, s) ==> s'.starts == s.starts + [Fetched(s) + n] && exists b :: FetchedInto(s, s', n, b)
    ensures OnlyRequested(cfg, s', k)
  {
    assert CanFetch(cfg, s);
    var b :| FetchedInto(s, s', n, b);
    assert s'.buffer == [] && s'.instQueue == [];
  }

  // ---------- when a bucket is held back ----------

  /** With at most one request at a time nothing waits for an earlier answer. */
  lemma AnswerAlone(cfg: Config, s: State, b: nat)
    requires Kept(cfg, s) && cfg.maxReqs <= 1 && s.received == {} && b in s.requested
    ensures ReadyItem(cfg, s, b).received == {}
  {
    var c :| c in s.requested && s.buckets[c].id == s.minItem by { NextIsOutside(cfg, s); }
    OnlyOne(s.requested, b, c);
    hide Kept;
    var s1 := Deliver(cfg, Answered(s, b), b);
    assert s1.received == {};
    assert ClearItems(cfg, s1) == s1;
  }

  lemma OnlyOne(all: set<nat>, b: nat, c: nat)
    requires b in all && c in all && |all| <= 1
    ensures b == c
  {
    assert |all - {b}| == 0;
  }

  lemma {:induction false} NoneHeldBack(cfg: Config, events: seq<Event>)
    requires cfg.Valid() && cfg.maxReqs <= 1
    ensures Exec(cfg, events).received == {}
  {
    if events != [] {
      var before, e := events[..|events| - 1], events[|events| - 1];
      NoneHeldBack(cfg, before);
      KeptAlways(cfg, before);
      var s := Exec(cfg, before);
      hide Kept, AdvanceClock, ReadyItem;
      if Enabled(cfg, s, e) {
        match e {
          case Cycle(work, n, accepted) => CycleFetches(cfg, s, work, n, accepted);
          case Answer(b) => AnswerAlone(cfg, s, b);
        }
      }
    }
  }

  /** An early answer: some bucket other than the next one in order is requested. */
  lemma EarlyOne(cfg: Config, s: State) returns (b: nat)
    requires Kept(cfg, s) && |s.requested| >= 2
    ensures b in s.requested && s.buckets[b].id != s.minItem
  {
    b :| b in s.requested;
    if s.buckets[b].id == s.minItem {
      assert |s.requested - {b}| >= 1;
      var c :| c in s.requested - {b};
      assert c in s.requested + s.received && b in s.requested + s.received;
      b := c;
    }
  }

  lemma HeldBackRun(cfg: Config) returns (events: seq<Event>)
    requires cfg.Valid() && cfg.maxReqs >= 2
    ensures Exec(cfg, events).received != {}
  {
    var before := ManyUnanswered(cfg, cfg.maxReqs, 0);
    KeptAlways(cfg, before);
    hide Exec;
    var b := EarlyOne(cfg, Exec(cfg, before));
    events := before + [Answer(b)];
    ExecStep(cfg, before, Answer(b));
    hide Kept;
    assert b in Exec(cfg, events).received;
  }

  /** Some run holds a bucket back if and only if more than one request is allowed at a time. */
  lemma HeldBackExactly(cfg: Config)
    requires cfg.Valid()
    ensures (exists events :: Exec(cfg, events).received != {}) <==> cfg.maxReqs >= 2
  {
    if cfg.maxReqs >= 2 {
      var events := HeldBackRun(cfg);
    } else {
      forall events ensures Exec(cfg, events).received == {} { NoneHeldBack(cfg, events); }
    }
  }

  /** The same of the requests: for every configuration the number unanswered at once reaches what is allowed, and
      never exceeds it. */
  lemma RequestsReachLimit(cfg: Config)
    requires cfg.Valid()
    ensures exists events :: |Exec(cfg, events).requested| == cfg.maxReqs
    ensures forall events :: |Exec(cfg, events).requested| <= cfg.maxReqs
  {
    var events := ManyUnanswered(cfg, cfg.maxReqs, cfg.fetchWidth);
    assert |Exec(cfg, events).requested| == cfg.maxReqs;
    forall other ensures |Exec(cfg, other).requested| <= cfg.maxReqs { BucketsConserved(cfg, other); KeptAlways(cfg, other); }
  }
}
