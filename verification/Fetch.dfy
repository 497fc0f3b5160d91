/**
 The fetch pipeline of a processor: buckets of instructions are requested from the
 instruction cache, answered in any order, put back in order, delayed, and fed to the
 reorder buffer.
 */
module Fetch {
  import opened Options

  /** Pipeline depth, outstanding requests allowed, and the widths and sizes of the stages. */
  datatype Config = Config(length: nat, maxReqs: nat, fetchWidth: nat, issueWidth: nat, instQueueSize: nat) {
    predicate Valid() { 0 < fetchWidth <= instQueueSize }

    function Buckets(): nat { length + 1 + maxReqs }

    /** The size asked for when the buffer is built. */
    function BufferSize(): nat { 2 * length + 1 + maxReqs }
  }

  /** A bucket's place in request order, the time its answer came, and the instructions still in it, which are
      numbered in fetch order. */
  datatype Bucket = Bucket(id: nat, clock: nat, insts: seq<nat>)

  /** Buckets are known by number. `requested` are those the cache has not answered; `issued` is everything ever pushed
      into the reorder buffer, and `starts` tells with which instruction each request began. */
  datatype State = State(now: nat, buckets: seq<Bucket>, pool: seq<nat>, requested: set<nat>, received: set<nat>,
                         buffer: seq<nat>, instQueue: seq<nat>, minItem: nat, nIRequests: int, space: int,
                         issued: seq<nat>, starts: seq<nat>)

  function Init(cfg: Config): State {
    State(0, seq(cfg.Buckets(), b => Bucket(0, 0, [])), seq(cfg.Buckets(), b requires 0 <= b => b), {}, {}, [], [], 0,
          cfg.maxReqs, cfg.instQueueSize, [], [0])
  }

  /** The number of requests made, which is the next bucket's place in order. */
  function MaxItem(s: State): int { |s.starts| - 1 }

  /** The number of instructions fetched. */
  function Fetched(s: State): nat
    requires s.starts != []
  {
    s.starts[|s.starts| - 1]
  }

  predicate Numbers(cfg: Config, q: seq<nat>) {
    forall k | 0 <= k < |q| :: q[k] < cfg.Buckets()
  }

  predicate Shape(cfg: Config, s: State) {
    && |s.buckets| == cfg.Buckets() && s.starts != []
    && Numbers(cfg, s.pool) && Numbers(cfg, s.buffer) && Numbers(cfg, s.instQueue)
    && (forall b | b in s.requested :: b < cfg.Buckets()) && (forall b | b in s.received :: b < cfg.Buckets())
  }

  function Range(lo: nat, hi: nat): seq<nat>
    requires lo <= hi
  {
    seq(hi - lo, i requires 0 <= i => lo + i)
  }

  // ---------- requesting and answering ----------

  /** A free bucket, if a request may be made, goes to the cache with the next n instructions. */
  function Request(cfg: Config, s: State, n: nat): (s': State)
    requires Shape(cfg, s)
    ensures Shape(cfg, s')
  {
    if s.nIRequests == 0 || s.pool == [] then s
    else
      var b := s.pool[|s.pool| - 1];
      s.(nIRequests := s.nIRequests - 1, pool := s.pool[..|s.pool| - 1], requested := s.requested + {b},
         buckets := s.buckets[b := s.buckets[b].(id := MaxItem(s), insts := Range(Fetched(s), Fetched(s) + n))],
         starts := s.starts + [Fetched(s) + n])
  }

  /** The next bucket in order leaves the reordering: into the buffer, or straight to the pool if it is empty. */
  function Deliver(cfg: Config, s: State, b: nat): (s': State)
    requires Shape(cfg, s) && b < cfg.Buckets()
    ensures Shape(cfg, s')
  {
    var s1 := s.(minItem := s.minItem + 1);
    if s.buckets[b].insts == [] then s1.(pool := s.pool + [b]) else s1.(buffer := s.buffer + [b])
  }

  /** The received bucket that is next in order. */
  function NextReceived(s: State, n: nat): (b: Option<nat>)
    requires n <= |s.buckets|
    ensures b.Some? ==> b.value < n && b.value in s.received && s.buckets[b.value].id == s.minItem
    ensures b.None? ==> forall x: nat | x < n && x in s.received :: s.buckets[x].id != s.minItem
  {
    if n == 0 then None
    else if n - 1 in s.received && s.buckets[n - 1].id == s.minItem then Some(n - 1)
    else NextReceived(s, n - 1)
  }

  /** Buckets that came early follow as long as the next one in order is among them. */
  function ClearItems(cfg: Config, s: State): (s': State)
    requires Shape(cfg, s)
    ensures Shape(cfg, s')
    decreases |s.received|
  {
    match NextReceived(s, |s.buckets|)
    case None => s
    case Some(b) => ClearItems(cfg, Deliver(cfg, s.(received := s.received - {b}), b))
  }

  /** The cache has answered for bucket b. */
  function ReadyItem(cfg: Config, s: State, b: nat): (s': State)
    requires Shape(cfg, s) && b in s.requested
    ensures Shape(cfg, s')
  {
    var s1 := s.(buckets := s.buckets[b := s.buckets[b].(clock := s.now)], nIRequests := s.nIRequests + 1,
                 requested := s.requested - {b});
    if s.buckets[b].id != s.minItem then s1.(received := s.received + {b})
    else ClearItems(cfg, Deliver(cfg, s1, b))
  }

  // ---------- the stages behind ----------

  /** Whether the bucket at the head of the buffer has been in the pipeline long enough. */
  predicate HeadDue(cfg: Config, s: State)
    requires Shape(cfg, s)
  {
    s.buffer != [] && s.buckets[s.buffer[0]].clock + cfg.length <= s.now
  }

  /** With room for a whole bucket, the one that is due goes to the instruction queue. */
  function Decode(cfg: Config, s: State): (s': State)
    requires Shape(cfg, s)
    ensures Shape(cfg, s')
  {
    if s.space >= cfg.fetchWidth && HeadDue(cfg, s) then
      var b := s.buffer[0];
      s.(buffer := s.buffer[1..], space := s.space - |s.buckets[b].insts|, instQueue := s.instQueue + [b])
    else s
  }

  /** One instruction from the head of the queue to the reorder buffer; an emptied bucket goes back to the pool. */
  function IssueOne(cfg: Config, s: State): (s': State)
    requires Shape(cfg, s) && s.instQueue != [] && s.buckets[s.instQueue[0]].insts != []
    ensures Shape(cfg, s')
  {
    var b := s.instQueue[0];
    var insts := s.buckets[b].insts;
    var s1 := s.(issued := s.issued + [insts[0]], buckets := s.buckets[b := s.buckets[b].(insts := insts[1..])]);
    if |insts| == 1 then s1.(pool := s.pool + [b], instQueue := s.instQueue[1..]) else s1
  }

  /** Up to k instructions; in the end their room in the queue is free again. */
  function IssueUpTo(cfg: Config, s: State, k: nat): (r: (State, nat))
    requires Shape(cfg, s)
    ensures Shape(cfg, r.0)
    decreases k
  {
    if k == 0 || s.instQueue == [] || s.buckets[s.instQueue[0]].insts == [] then (s, 0)
    else
      var (s', n) := IssueUpTo(cfg, IssueOne(cfg, s), k - 1);
      (s', n + 1)
  }

  function Min(x: nat, y: nat): nat { if x < y then x else y }

  /** The rename stage: instructions go on until `accepted` of them have, the issue width is reached, or none is left. */
  function Issue(cfg: Config, s: State, accepted: nat): (s': State)
    requires Shape(cfg, s)
    ensures Shape(cfg, s')
  {
    var (s1, n) := IssueUpTo(cfg, s, Min(accepted, cfg.issueWidth));
    s1.(space := s.space + n)
  }

  // ---------- runs ----------

  /** A clock cycle, in which n instructions could be fetched if there is work and the back end would accept this many;
      or the cache's answer for a bucket. */
  datatype Event = Cycle(work: bool, n: nat, accepted: nat) | Answer(b: nat)

  predicate Enabled(cfg: Config, s: State, e: Event) {
    match e
    case Cycle(_, n, _) => n <= cfg.fetchWidth
    case Answer(b) => b in s.requested
  }

  function AdvanceClock(cfg: Config, s: State, work: bool, n: nat, accepted: nat): (s': State)
    requires Shape(cfg, s)
    ensures Shape(cfg, s')
  {
    var s1 := if work then Request(cfg, s.(now := s.now + 1), n) else s.(now := s.now + 1);
    Issue(cfg, Decode(cfg, s1), accepted)
  }

  function Step(cfg: Config, s: State, e: Event): (s': State)
    requires Shape(cfg, s)
    ensures Shape(cfg, s')
  {
    if !Enabled(cfg, s, e) then s
    else match e
      case Cycle(work, n, accepted) => AdvanceClock(cfg, s, work, n, accepted)
      case Answer(b) => ReadyItem(cfg, s, b)
  }

  function Exec(cfg: Config, events: seq<Event>): (s: State)
    requires cfg.Valid()
    ensures Shape(cfg, s)
  {
    if events == [] then Init(cfg) else Step(cfg, Exec(cfg, events[..|events| - 1]), events[|events| - 1])
  }

  // ---------- the invariant ----------

  /** Every bucket is in exactly one place. */
  predicate Conserved(cfg: Config, s: State) {
    multiset(s.pool) + multiset(s.requested) + multiset(s.received) + multiset(s.buffer) + multiset(s.instQueue)
    == multiset(Range(0, cfg.Buckets()))
  }

  /** A bucket holds the instructions of its request, and earlier requests are done. */
  predicate Untouched(cfg: Config, x: Bucket, starts: seq<nat>, minItem: nat) {
    && minItem <= x.id < |starts| - 1
    && starts[x.id] <= starts[x.id + 1] <= starts[x.id] + cfg.fetchWidth
    && x.insts == Range(starts[x.id], starts[x.id + 1])
  }

  ghost predicate DistinctIds(buckets: seq<Bucket>, all: set<nat>)
    requires forall b | b in all :: b < |buckets|
  {
    forall b, c | b in all && c in all && b != c :: buckets[b].id != buckets[c].id
  }

  /** These buckets are the requests from minItem on, one bucket each. */
  ghost predicate Requests(cfg: Config, buckets: seq<Bucket>, starts: seq<nat>, minItem: nat, all: set<nat>)
    requires forall b | b in all :: b < |buckets|
  {
    && (forall b | b in all :: Untouched(cfg, buckets[b], starts, minItem))
    && DistinctIds(buckets, all)
    && |all| == |starts| - 1 - minItem
  }

  /** So are the buckets outside, answered or not. */
  ghost predicate Outside(cfg: Config, s: State)
    requires Shape(cfg, s)
  {
    Requests(cfg, s.buckets, s.starts, s.minItem, s.requested + s.received)
  }

  /** The next one in order has not been answered. */
  ghost predicate NextUnanswered(cfg: Config, s: State)
    requires Shape(cfg, s)
  {
    forall b | b in s.received :: s.buckets[b].id != s.minItem
  }

  /** Requests made and requests still allowed. */
  predicate Credits(cfg: Config, s: State) {
    0 <= s.nIRequests && s.nIRequests + |s.requested| == cfg.maxReqs
  }

  /** The buckets in order: those in the instruction queue, then those in the buffer. */
  function Line(s: State): seq<nat> { s.instQueue + s.buffer }

  /** The instruction after the last one in the first n buckets of the line. */
  function EndAt(cfg: Config, s: State, n: nat): nat
    requires Shape(cfg, s) && n <= |Line(s)|
  {
    if n == 0 then |s.issued| else EndAt(cfg, s, n - 1) + |s.buckets[Line(s)[n - 1]].insts|
  }

  /** Bucket j of the line is not empty, and holds what follows on the ones before it without gap or overlap. */
  predicate InLine(cfg: Config, s: State, j: nat)
    requires Shape(cfg, s) && j < |Line(s)|
  {
    var insts := s.buckets[Line(s)[j]].insts;
    0 < |insts| <= cfg.fetchWidth && insts == Range(EndAt(cfg, s, j), EndAt(cfg, s, j + 1))
  }

  /** What was issued, then what stands in line, is all that was fetched before request minItem. */
  ghost predicate Ordered(cfg: Config, s: State)
    requires Shape(cfg, s)
  {
    && s.issued == Range(0, |s.issued|)
    && (forall j | 0 <= j < |Line(s)| :: InLine(cfg, s, j))
    && s.minItem <= MaxItem(s) && EndAt(cfg, s, |Line(s)|) == s.starts[s.minItem]
  }

  /** The instructions in the instruction queue and the room left in it. */
  predicate Room(cfg: Config, s: State)
    requires Shape(cfg, s)
  {
    0 <= s.space && s.space + EndAt(cfg, s, |s.instQueue|) - |s.issued| == cfg.instQueueSize
  }

  /** Requests begin one after the other. */
  ghost predicate Up(starts: seq<nat>) {
    forall i, j | 0 <= i < j < |starts| :: starts[i] <= starts[j]
  }

  ghost predicate Core(cfg: Config, s: State) {
    cfg.Valid() && Shape(cfg, s) && Conserved(cfg, s) && Outside(cfg, s) && Credits(cfg, s) && Ordered(cfg, s) && Up(s.starts)
  }

  ghost predicate Kept(cfg: Config, s: State) {
    Core(cfg, s) && NextUnanswered(cfg, s) && Room(cfg, s)
  }

  // ---------- where a bucket is ----------

  lemma {:induction false} RangeOnce(lo: nat, hi: nat, b: nat)
    requires lo <= b < hi
    ensures multiset(Range(lo, hi))[b] == 1
    decreases hi - lo
  {
    var r := Range(lo, hi);
    assert r == [lo] + Range(lo + 1, hi);
    if b == lo {
      assert lo !in Range(lo + 1, hi);
    } else {
      RangeOnce(lo + 1, hi, b);
    }
  }

  lemma OnePlace(cfg: Config, s: State, b: nat)
    requires Conserved(cfg, s) && b < cfg.Buckets()
    ensures multiset(s.pool)[b] + multiset(s.requested)[b] + multiset(s.received)[b] + multiset(s.buffer)[b] + multiset(s.instQueue)[b] == 1
  {
    RangeOnce(0, cfg.Buckets(), b);
    assert (multiset(s.pool) + multiset(s.requested) + multiset(s.received) + multiset(s.buffer) + multiset(s.instQueue))[b] == 1;
  }

  lemma InitKept(cfg: Config)
    requires cfg.Valid()
    ensures Kept(cfg, Init(cfg))
  {
    var s := Init(cfg);
    assert s.pool == Range(0, cfg.Buckets());
    assert Line(s) == [];
  }

  /** A bucket in one place is in no other. */
  lemma InPool(cfg: Config, s: State, b: nat)
    requires Conserved(cfg, s) && b < cfg.Buckets() && b in s.pool
    ensures b !in s.requested && b !in s.received && b !in Line(s) && multiset(s.pool)[b] == 1
  {
    OnePlace(cfg, s, b);
  }

  lemma IsOutside(cfg: Config, s: State, b: nat)
    requires Conserved(cfg, s) && b < cfg.Buckets() && b in s.requested + s.received
    ensures (b in s.requested <==> b !in s.received) && b !in s.pool && b !in Line(s)
  {
    OnePlace(cfg, s, b);
  }

  lemma {:induction false} EndAtSame(cfg: Config, s: State, s': State, n: nat)
    requires Shape(cfg, s) && Shape(cfg, s') && n <= |Line(s)| && Line(s) == Line(s') && |s.issued| == |s'.issued|
    requires forall b | b in Line(s) :: |s.buckets[b].insts| == |s'.buckets[b].insts|
    ensures EndAt(cfg, s, n) == EndAt(cfg, s', n)
  {
    if n > 0 { EndAtSame(cfg, s, s', n - 1); }
  }

  // ---------- a request ----------

  predicate Requestable(s: State) { s.nIRequests != 0 && s.pool != [] }

  lemma RequestConserved(cfg: Config, s: State, n: nat)
    requires Shape(cfg, s) && Conserved(cfg, s) && Credits(cfg, s)
    ensures Conserved(cfg, Request(cfg, s, n)) && Credits(cfg, Request(cfg, s, n))
  {
    if Requestable(s) {
      var k := |s.pool| - 1;
      var b := s.pool[k];
      InPool(cfg, s, b);
      assert s.pool == s.pool[..k] + [b];
      assert multiset(s.requested + {b}) == multiset(s.requested) + multiset{b};
    }
  }

  lemma UpNext(starts: seq<nat>, n: nat)
    requires Up(starts) && starts != []
    ensures Up(starts + [starts[|starts| - 1] + n])
  {
  }

  lemma RequestUp(cfg: Config, s: State, n: nat)
    requires Shape(cfg, s) && Up(s.starts)
    ensures Up(Request(cfg, s, n).starts)
  {
    hide Up;
    UpNext(s.starts, n);
    assert Up(Request(cfg, s, n).starts);
  }

  lemma DistinctNext(buckets: seq<Bucket>, all: set<nat>, b: nat, x: Bucket)
    requires (forall c | c in all :: c < |buckets| && buckets[c].id < x.id) && b < |buckets| && b !in all
    requires DistinctIds(buckets, all)
    ensures DistinctIds(buckets[b := x], all + {b})
  {
  }

  lemma RequestsNext(cfg: Config, buckets: seq<Bucket>, starts: seq<nat>, minItem: nat, all: set<nat>, b: nat, x: Bucket, n: nat)
    requires (forall c | c in all :: c < |buckets|) && b < |buckets| && b !in all && starts != [] && n <= cfg.fetchWidth
    requires minItem <= |starts| - 1 && Requests(cfg, buckets, starts, minItem, all)
    requires var last := starts[|starts| - 1]; x.id == |starts| - 1 && x.insts == Range(last, last + n)
    ensures Requests(cfg, buckets[b := x], starts + [starts[|starts| - 1] + n], minItem, all + {b})
  {
    forall c | c in all ensures buckets[c].id < x.id { assert Untouched(cfg, buckets[c], starts, minItem); }
    DistinctNext(buckets, all, b, x);
    hide DistinctIds;
    var starts' := starts + [starts[|starts| - 1] + n];
    forall c | c in all + {b} ensures Untouched(cfg, buckets[b := x][c], starts', minItem) {
      if c in all { assert Untouched(cfg, buckets[c], starts, minItem); }
    }
    assert |all + {b}| == |all| + 1;
  }

  lemma RequestOutside(cfg: Config, s: State, n: nat)
    requires Shape(cfg, s) && Outside(cfg, s) && Requestable(s) && n <= cfg.fetchWidth && s.minItem <= MaxItem(s)
    requires var b := s.pool[|s.pool| - 1]; b !in s.requested && b !in s.received
    ensures Outside(cfg, Request(cfg, s, n))
  {
    hide Requests;
    var s', b, all := Request(cfg, s, n), s.pool[|s.pool| - 1], s.requested + s.received;
    RequestsNext(cfg, s.buckets, s.starts, s.minItem, all, b, s'.buckets[b], n);
    assert s'.requested + s'.received == all + {b};
    assert Outside(cfg, s');
  }

  lemma RequestNext(cfg: Config, s: State, n: nat)
    requires Shape(cfg, s) && NextUnanswered(cfg, s) && (Requestable(s) ==> s.pool[|s.pool| - 1] !in s.received)
    ensures NextUnanswered(cfg, Request(cfg, s, n))
  {
  }

  /** What the line holds, and its order, depend only on the buckets in it. */
  lemma SameLine(cfg: Config, s: State, s': State)
    requires Shape(cfg, s) && Shape(cfg, s') && Ordered(cfg, s)
    requires s'.instQueue == s.instQueue && s'.buffer == s.buffer && s'.issued == s.issued && s'.minItem == s.minItem && s'.space == s.space
    requires s.starts <= s'.starts
    requires forall b | b in Line(s) :: s'.buckets[b].insts == s.buckets[b].insts
    ensures Ordered(cfg, s') && (Room(cfg, s) ==> Room(cfg, s'))
  {
    forall j | 0 <= j <= |Line(s)| ensures EndAt(cfg, s', j) == EndAt(cfg, s, j) { EndAtSame(cfg, s, s', j); }
    forall j | 0 <= j < |Line(s')| ensures InLine(cfg, s', j) { assert InLine(cfg, s, j) && Line(s)[j] in Line(s); }
  }

  lemma RequestOrdered(cfg: Config, s: State, n: nat)
    requires Shape(cfg, s) && Ordered(cfg, s) && (Requestable(s) ==> s.pool[|s.pool| - 1] !in Line(s))
    ensures Ordered(cfg, Request(cfg, s, n)) && (Room(cfg, s) ==> Room(cfg, Request(cfg, s, n)))
  {
    if Requestable(s) { SameLine(cfg, s, Request(cfg, s, n)); }
  }

  lemma RequestKept(cfg: Config, s: State, n: nat)
    requires Kept(cfg, s) && n <= cfg.fetchWidth
    ensures Kept(cfg, Request(cfg, s, n))
  {
    assert s.minItem <= MaxItem(s);
    hide Conserved, Credits, Outside, Up, NextUnanswered, Ordered, Room;
    if Requestable(s) {
      InPool(cfg, s, s.pool[|s.pool| - 1]);
      RequestOutside(cfg, s, n);
    }
    RequestConserved(cfg, s, n);
    RequestUp(cfg, s, n);
    RequestNext(cfg, s, n);
    RequestOrdered(cfg, s, n);
    assert Kept(cfg, Request(cfg, s, n));
  }

  // ---------- an answer ----------

  /** Every bucket but b is in exactly one place, and b in none. */
  predicate ConservedBut(cfg: Config, s: State, b: nat) {
    multiset(s.pool) + multiset(s.requested) + multiset(s.received) + multiset(s.buffer) + multiset(s.instQueue) + multiset{b}
    == multiset(Range(0, cfg.Buckets()))
  }

  /** The invariant with bucket b, the next one in order, taken out of its place. */
  ghost predicate InHand(cfg: Config, s: State, b: nat) {
    && cfg.Valid() && Shape(cfg, s) && b < cfg.Buckets()
    && ConservedBut(cfg, s, b)
    && Requests(cfg, s.buckets, s.starts, s.minItem, s.requested + s.received + {b})
    && b !in s.requested + s.received && s.buckets[b].id == s.minItem
    && Credits(cfg, s) && Ordered(cfg, s) && Up(s.starts)
  }

  lemma RequestsSame(cfg: Config, buckets: seq<Bucket>, buckets': seq<Bucket>, starts: seq<nat>, minItem: nat, all: set<nat>)
    requires forall b | b in all :: b < |buckets| == |buckets'| && buckets'[b].id == buckets[b].id && buckets'[b].insts == buckets[b].insts
    requires Requests(cfg, buckets, starts, minItem, all)
    ensures Requests(cfg, buckets', starts, minItem, all)
  {
    forall b | b in all ensures Untouched(cfg, buckets'[b], starts, minItem) { assert Untouched(cfg, buckets[b], starts, minItem); }
  }

  lemma RequestsDone(cfg: Config, buckets: seq<Bucket>, starts: seq<nat>, minItem: nat, all: set<nat>, b: nat)
    requires (forall c | c in all :: c < |buckets|) && b in all && buckets[b].id == minItem
    requires Requests(cfg, buckets, starts, minItem, all)
    ensures Requests(cfg, buckets, starts, minItem + 1, all - {b})
    ensures minItem + 1 < |starts| && buckets[b].insts == Range(starts[minItem], starts[minItem + 1]) && |buckets[b].insts| <= cfg.fetchWidth
  {
    assert Untouched(cfg, buckets[b], starts, minItem);
    forall c | c in all - {b} ensures Untouched(cfg, buckets[c], starts, minItem + 1) {
      assert Untouched(cfg, buckets[c], starts, minItem);
    }
  }

  lemma TakenConserved(cfg: Config, s: State, b: nat)
    requires Conserved(cfg, s)
    ensures b in s.received ==> ConservedBut(cfg, s.(received := s.received - {b}), b)
    ensures b in s.requested ==> ConservedBut(cfg, s.(requested := s.requested - {b}), b)
    ensures b in s.requested && b !in s.received ==>
      Conserved(cfg, s.(requested := s.requested - {b}, received := s.received + {b}))
  {
    if b in s.received { assert multiset(s.received - {b}) + multiset{b} == multiset(s.received); }
    if b in s.requested { assert multiset(s.requested - {b}) + multiset{b} == multiset(s.requested); }
    if b !in s.received { assert multiset(s.received + {b}) == multiset(s.received) + multiset{b}; }
  }

  lemma SamePlaces(cfg: Config, s: State, s': State, b: nat)
    requires s.pool == s'.pool && s.requested == s'.requested && s.received == s'.received && s.buffer == s'.buffer && s.instQueue == s'.instQueue
    ensures Conserved(cfg, s) == Conserved(cfg, s') && ConservedBut(cfg, s, b) == ConservedBut(cfg, s', b)
  {
  }

  lemma TakeReceived(cfg: Config, s: State, b: nat)
    requires Core(cfg, s) && b in s.received && s.buckets[b].id == s.minItem
    ensures InHand(cfg, s.(received := s.received - {b}), b)
  {
    hide Conserved, ConservedBut, Requests, Ordered, Up;
    var s' := s.(received := s.received - {b});
    IsOutside(cfg, s, b);
    SameLine(cfg, s, s');
    TakenConserved(cfg, s, b);
    assert s'.requested + s'.received + {b} == s.requested + s.received;
    assert InHand(cfg, s', b);
  }

  /** The answered bucket: no longer requested, and stamped. */
  function Answered(s: State, b: nat): State
    requires b < |s.buckets|
  {
    s.(buckets := s.buckets[b := s.buckets[b].(clock := s.now)], nIRequests := s.nIRequests + 1, requested := s.requested - {b})
  }

  lemma AnsweredNext(cfg: Config, s: State, b: nat)
    requires Core(cfg, s) && b in s.requested && s.buckets[b].id == s.minItem
    ensures InHand(cfg, Answered(s, b), b)
  {
    hide Conserved, ConservedBut, Requests, Ordered, Up;
    var s' := Answered(s, b);
    IsOutside(cfg, s, b);
    SameLine(cfg, s, s');
    RequestsSame(cfg, s.buckets, s'.buckets, s.starts, s.minItem, s.requested + s.received);
    TakenConserved(cfg, s, b);
    SamePlaces(cfg, s', s.(requested := s.requested - {b}), b);
    assert s'.requested + s'.received + {b} == s.requested + s.received;
    assert InHand(cfg, s', b);
  }

  lemma AnsweredEarly(cfg: Config, s: State, b: nat)
    requires Core(cfg, s) && b in s.requested
    ensures Core(cfg, Answered(s, b).(received := s.received + {b}))
  {
    hide Conserved, Requests, Ordered, Up;
    var s' := Answered(s, b).(received := s.received + {b});
    IsOutside(cfg, s, b);
    SameLine(cfg, s, s');
    RequestsSame(cfg, s.buckets, s'.buckets, s.starts, s.minItem, s.requested + s.received);
    TakenConserved(cfg, s, b);
    SamePlaces(cfg, s', s.(requested := s.requested - {b}, received := s.received + {b}), b);
    assert s'.requested + s'.received == s.requested + s.received;
    assert Core(cfg, s');
  }

  /** In the line the bucket follows on the others. */
  lemma DeliverOrdered(cfg: Config, s: State, b: nat)
    requires Shape(cfg, s) && Ordered(cfg, s) && b < cfg.Buckets()
    requires s.minItem + 1 < |s.starts| && s.starts[s.minItem] <= s.starts[s.minItem + 1]
    requires s.buckets[b].insts == Range(s.starts[s.minItem], s.starts[s.minItem + 1]) && |s.buckets[b].insts| <= cfg.fetchWidth
    ensures Ordered(cfg, Deliver(cfg, s, b)) && (Room(cfg, s) ==> Room(cfg, Deliver(cfg, s, b)))
  {
    var s' := Deliver(cfg, s, b);
    var n := |Line(s)|;
    forall j | 0 <= j <= n ensures EndAt(cfg, s', j) == EndAt(cfg, s, j) { EndAtLonger(cfg, s, s', j); }
    forall j | 0 <= j < n ensures InLine(cfg, s', j) { assert InLine(cfg, s, j); }
    if s.buckets[b].insts != [] { assert Line(s') == Line(s) + [b]; }
  }

  lemma {:induction false} EndAtLonger(cfg: Config, s: State, s': State, n: nat)
    requires Shape(cfg, s) && Shape(cfg, s') && n <= |Line(s)| && Line(s) <= Line(s') && s'.buckets == s.buckets && s'.issued == s.issued
    ensures EndAt(cfg, s', n) == EndAt(cfg, s, n)
  {
    if n > 0 { EndAtLonger(cfg, s, s', n - 1); }
  }

  lemma DeliverConserved(cfg: Config, s: State, b: nat)
    requires Shape(cfg, s) && b < cfg.Buckets() && ConservedBut(cfg, s, b)
    ensures Conserved(cfg, Deliver(cfg, s, b))
  {
  }

  lemma DeliverFields(cfg: Config, s: State, b: nat)
    requires Shape(cfg, s) && b < cfg.Buckets()
    ensures var s' := Deliver(cfg, s, b);
      && s'.minItem == s.minItem + 1 && s'.requested == s.requested && s'.received == s.received && s'.buckets == s.buckets
      && s'.starts == s.starts && s'.nIRequests == s.nIRequests
  {
  }

  lemma DeliverCore(cfg: Config, s: State, b: nat)
    requires InHand(cfg, s, b)
    ensures Core(cfg, Deliver(cfg, s, b)) && (Room(cfg, s) ==> Room(cfg, Deliver(cfg, s, b)))
  {
    hide Ordered, Up, Room, Requests, Conserved, ConservedBut, Deliver, Untouched;
    DeliverFields(cfg, s, b);
    RequestsDone(cfg, s.buckets, s.starts, s.minItem, s.requested + s.received + {b}, b);
    assert s.requested + s.received + {b} - {b} == s.requested + s.received;
    InOrder(s.starts, s.minItem);
    DeliverOrdered(cfg, s, b);
    DeliverConserved(cfg, s, b);
    CoreOf(cfg, Deliver(cfg, s, b));
  }

  lemma CoreOf(cfg: Config, s: State)
    requires cfg.Valid() && Shape(cfg, s) && Conserved(cfg, s) && Outside(cfg, s) && Credits(cfg, s) && Ordered(cfg, s) && Up(s.starts)
    ensures Core(cfg, s)
  {
  }

  lemma InOrder(starts: seq<nat>, i: nat)
    requires Up(starts) && i + 1 < |starts|
    ensures starts[i] <= starts[i + 1]
  {
  }

  lemma {:induction false} ClearItemsKept(cfg: Config, s: State)
    requires Core(cfg, s) && Room(cfg, s)
    ensures Kept(cfg, ClearItems(cfg, s))
    decreases |s.received|
  {
    hide Core, Room;
    var b := NextReceived(s, |s.buckets|);
    if b.Some? {
      var s1 := s.(received := s.received - {b.value});
      TakeReceived(cfg, s, b.value);
      RoomSame(cfg, s, s1);
      DeliverCore(cfg, s1, b.value);
      ClearItemsKept(cfg, Deliver(cfg, s1, b.value));
    }
  }

  lemma RoomSame(cfg: Config, s: State, s': State)
    requires Core(cfg, s) && Room(cfg, s) && Shape(cfg, s')
    requires s'.instQueue == s.instQueue && s'.buffer == s.buffer && s'.issued == s.issued && s'.minItem == s.minItem && s'.space == s.space
    requires s'.starts == s.starts && forall b | b in Line(s) :: s'.buckets[b].insts == s.buckets[b].insts
    ensures Room(cfg, s')
  {
    SameLine(cfg, s, s');
  }

  lemma ReadyItemKept(cfg: Config, s: State, b: nat)
    requires Kept(cfg, s) && b in s.requested
    ensures Kept(cfg, ReadyItem(cfg, s, b))
  {
    hide Conserved, Requests, Ordered, Up, Room, Credits, Deliver, ClearItems;
    var s1 := Answered(s, b);
    if s.buckets[b].id != s.minItem {
      AnsweredEarly(cfg, s, b);
      RoomSame(cfg, s, s1.(received := s.received + {b}));
      assert NextUnanswered(cfg, s1.(received := s.received + {b}));
    } else {
      AnsweredNext(cfg, s, b);
      RoomSame(cfg, s, s1);
      DeliverCore(cfg, s1, b);
      ClearItemsKept(cfg, Deliver(cfg, s1, b));
    }
    assert Kept(cfg, ReadyItem(cfg, s, b));
  }

  // ---------- decoding and issuing ----------

  lemma DecodeKept(cfg: Config, s: State)
    requires Kept(cfg, s)
    ensures Kept(cfg, Decode(cfg, s))
  {
    hide Conserved, Requests, Up, Ordered, Room;
    if s.space >= cfg.fetchWidth && HeadDue(cfg, s) {
      DecodeConserved(cfg, s);
      DecodeOrdered(cfg, s);
    }
    assert Kept(cfg, Decode(cfg, s));
  }

  lemma DecodeConserved(cfg: Config, s: State)
    requires Shape(cfg, s) && Conserved(cfg, s)
    ensures Conserved(cfg, Decode(cfg, s))
  {
    if s.buffer != [] { assert s.buffer == [s.buffer[0]] + s.buffer[1..]; }
  }

  /** The line stays as it is; only the border between its two parts moves. */
  lemma DecodeOrdered(cfg: Config, s: State)
    requires cfg.Valid() && Shape(cfg, s) && Ordered(cfg, s) && Room(cfg, s)
    ensures Ordered(cfg, Decode(cfg, s)) && Room(cfg, Decode(cfg, s))
  {
    var s' := Decode(cfg, s);
    if s.space >= cfg.fetchWidth && HeadDue(cfg, s) {
      var n := |s.instQueue|;
      assert s.buffer == [s.buffer[0]] + s.buffer[1..];
      assert Line(s') == Line(s) && Line(s)[n] == s.buffer[0];
      assert InLine(cfg, s, n);
      forall j | 0 <= j <= |Line(s)| ensures EndAt(cfg, s', j) == EndAt(cfg, s, j) { EndAtSame(cfg, s, s', j); }
      forall j | 0 <= j < |Line(s)| ensures InLine(cfg, s', j) { assert InLine(cfg, s, j); }
    }
  }

  predicate HeadDistinct(s: State) {
    s.instQueue != [] && forall j | 0 < j < |Line(s)| :: Line(s)[j] != s.instQueue[0]
  }

  /** The line before and after its head has lost one instruction, or itself with its last one. */
  lemma {:induction false} IssuedEnd(cfg: Config, s: State, n: nat)
    requires Shape(cfg, s) && HeadDistinct(s) && 0 < n <= |Line(s)| && s.buckets[s.instQueue[0]].insts != []
    ensures var s' := IssueOne(cfg, s); var gone := if |s.buckets[s.instQueue[0]].insts| == 1 then 1 else 0;
      && Line(s') == Line(s)[gone..]
      && EndAt(cfg, s', n - gone) == EndAt(cfg, s, n)
  {
    var s' := IssueOne(cfg, s);
    var gone := if |s.buckets[s.instQueue[0]].insts| == 1 then 1 else 0;
    assert Line(s') == Line(s)[gone..];
    if n > 1 {
      IssuedEnd(cfg, s, n - 1);
      assert Line(s')[n - gone - 1] == Line(s)[n - 1];
    }
  }

  lemma HeadOnce(cfg: Config, s: State)
    requires Conserved(cfg, s) && s.instQueue != [] && s.instQueue[0] < cfg.Buckets()
    ensures HeadDistinct(s)
    ensures s.instQueue[0] !in s.requested && s.instQueue[0] !in s.received
  {
    var b, rest := s.instQueue[0], s.instQueue[1..] + s.buffer;
    OnePlace(cfg, s, b);
    assert s.instQueue == [b] + s.instQueue[1..];
    assert b !in rest;
    forall j | 0 < j < |Line(s)| ensures Line(s)[j] != b { assert Line(s)[j] == rest[j - 1]; }
  }

  lemma IssuedInLine(cfg: Config, s: State, j: nat)
    requires Shape(cfg, s) && HeadDistinct(s) && s.buckets[s.instQueue[0]].insts != []
    requires var gone := if |s.buckets[s.instQueue[0]].insts| == 1 then 1 else 0;
      j + gone < |Line(s)| && InLine(cfg, s, j + gone)
    ensures j < |Line(IssueOne(cfg, s))| && InLine(cfg, IssueOne(cfg, s), j)
  {
    var s', b := IssueOne(cfg, s), s.instQueue[0];
    var gone := if |s.buckets[b].insts| == 1 then 1 else 0;
    IssuedEnd(cfg, s, j + gone + 1);
    assert Line(s)[0] == b && Line(s')[j] == Line(s)[j + gone];
    if j + gone > 0 { IssuedEnd(cfg, s, j + gone); }
  }

  lemma IssueOneEnds(cfg: Config, s: State)
    requires Shape(cfg, s) && Ordered(cfg, s) && HeadDistinct(s)
    ensures s.buckets[s.instQueue[0]].insts != []
    ensures var s' := IssueOne(cfg, s);
      && |s'.issued| == |s.issued| + 1 && s'.issued == Range(0, |s'.issued|)
      && EndAt(cfg, s', |s'.instQueue|) == EndAt(cfg, s, |s.instQueue|)
      && EndAt(cfg, s', |Line(s')|) == EndAt(cfg, s, |Line(s)|)
  {
    NextToIssue(cfg, s);
    IssuedEnd(cfg, s, |Line(s)|);
    IssuedEnd(cfg, s, |s.instQueue|);
    hide InLine, EndAt, HeadDistinct, Ordered;
    var s' := IssueOne(cfg, s);
    assert s'.issued == Range(0, |s.issued| + 1);
  }

  /** The first instruction of the line is the one after the last issued. */
  lemma NextToIssue(cfg: Config, s: State)
    requires Shape(cfg, s) && Ordered(cfg, s) && s.instQueue != []
    ensures var insts := s.buckets[s.instQueue[0]].insts; insts != [] && insts[0] == |s.issued|
  {
    assert InLine(cfg, s, 0);
    assert Line(s)[0] == s.instQueue[0];
  }

  lemma IssueOneOrdered(cfg: Config, s: State)
    requires Shape(cfg, s) && Ordered(cfg, s) && HeadDistinct(s) && s.buckets[s.instQueue[0]].insts != []
    ensures Ordered(cfg, IssueOne(cfg, s))
  {
    hide InLine, EndAt;
    IssueOneEnds(cfg, s);
    var s' := IssueOne(cfg, s);
    var gone := if |s.buckets[s.instQueue[0]].insts| == 1 then 1 else 0;
    assert |Line(s')| == |Line(s)| - gone;
    forall j | 0 <= j < |Line(s')| ensures InLine(cfg, s', j) {
      assert InLine(cfg, s, j + gone);
      IssuedInLine(cfg, s, j);
    }
  }

  lemma IssueOneConserved(cfg: Config, s: State)
    requires Shape(cfg, s) && Conserved(cfg, s) && s.instQueue != [] && s.buckets[s.instQueue[0]].insts != []
    ensures Conserved(cfg, IssueOne(cfg, s))
  {
    assert s.instQueue == [s.instQueue[0]] + s.instQueue[1..];
  }

  lemma IssueOneCore(cfg: Config, s: State)
    requires Core(cfg, s) && NextUnanswered(cfg, s) && s.instQueue != []
    ensures s.buckets[s.instQueue[0]].insts != []
    ensures var s' := IssueOne(cfg, s);
      && Core(cfg, s') && NextUnanswered(cfg, s') && s'.space == s.space && |s'.issued| == |s.issued| + 1
      && EndAt(cfg, s', |s'.instQueue|) == EndAt(cfg, s, |s.instQueue|)
  {
    hide Conserved, Requests, Up, Ordered;
    HeadOnce(cfg, s);
    IssueOneEnds(cfg, s);
    IssueOneOrdered(cfg, s);
    IssueOneConserved(cfg, s);
    var s' := IssueOne(cfg, s);
    RequestsSame(cfg, s.buckets, s'.buckets, s.starts, s.minItem, s.requested + s.received);
    assert Core(cfg, s') && NextUnanswered(cfg, s');
  }

  lemma {:induction false} IssueUpToCore(cfg: Config, s: State, k: nat)
    requires Core(cfg, s) && NextUnanswered(cfg, s)
    ensures var (s', n) := IssueUpTo(cfg, s, k);
      && Core(cfg, s') && NextUnanswered(cfg, s') && s'.space == s.space && |s'.issued| == |s.issued| + n
      && EndAt(cfg, s', |s'.instQueue|) == EndAt(cfg, s, |s.instQueue|)
      && n <= k && (n < k ==> s'.instQueue == [])
    decreases k
  {
    hide Conserved, Requests, Up, Credits, Ordered, IssueOne, NextUnanswered;
    if k > 0 && s.instQueue != [] {
      IssueOneCore(cfg, s);
      IssueUpToCore(cfg, IssueOne(cfg, s), k - 1);
    }
  }

  lemma IssueKept(cfg: Config, s: State, accepted: nat)
    requires Kept(cfg, s)
    ensures Kept(cfg, Issue(cfg, s, accepted))
  {
    hide Conserved, Requests, Up, Credits, Ordered, IssueUpTo;
    var k := Min(accepted, cfg.issueWidth);
    IssueUpToCore(cfg, s, k);
    var (s1, n) := IssueUpTo(cfg, s, k);
    MoreSpace(cfg, s1, n);
  }

  lemma MoreSpace(cfg: Config, s: State, n: nat)
    requires Core(cfg, s) && NextUnanswered(cfg, s)
    ensures var s' := s.(space := s.space + n);
      Core(cfg, s') && NextUnanswered(cfg, s') && EndAt(cfg, s', |s'.instQueue|) == EndAt(cfg, s, |s.instQueue|)
  {
    hide Requests, Up;
    var s' := s.(space := s.space + n);
    forall j | 0 <= j <= |Line(s)| ensures EndAt(cfg, s', j) == EndAt(cfg, s, j) { EndAtSame(cfg, s, s', j); }
    forall j | 0 <= j < |Line(s)| ensures InLine(cfg, s', j) { assert InLine(cfg, s, j); }
    assert Core(cfg, s');
  }
}
