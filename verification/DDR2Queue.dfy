/**
 Conservation in a DDR2 channel: slots and requests are neither lost nor doubled,
 requests enter the scheduling queue in arrival order, and the first-come scheduler
 completes them in the order of their time stamps.
 */
module DDR2Queue {
  import opened Options
  import opened DDR2State
  import opened DDR2Trace

  /** How often request x is carried by a live entry. */
  function Share(live: bool, m: MemRef, x: Request): nat {
    if live && m.request == Some(x) then 1 else 0
  }

  function QueuedCount(q: seq<MemRef>, x: Request): nat {
    if q == [] then 0 else QueuedCount(q[..|q| - 1], x) + Share(q[|q| - 1].valid, q[|q| - 1], x)
  }

  function DoneCount(done: seq<MemRef>, x: Request): nat {
    if done == [] then 0 else DoneCount(done[..|done| - 1], x) + Share(true, done[|done| - 1], x)
  }

  function Count(s: seq<Request>, x: Request): nat {
    multiset(s)[x]
  }

  lemma {:induction false} QueuedUpdate(q: seq<MemRef>, k: nat, m: MemRef, x: Request)
    requires k < |q|
    ensures QueuedCount(q[k := m], x) + Share(q[k].valid, q[k], x) == QueuedCount(q, x) + Share(m.valid, m, x)
  {
    var n := |q| - 1;
    if k < n {
      assert q[k := m][..n] == q[..n][k := m];
      QueuedUpdate(q[..n], k, m, x);
    } else {
      assert q[k := m][..n] == q[..n];
    }
  }

  lemma {:induction false} QueuedSame(q: seq<MemRef>, q': seq<MemRef>, x: Request)
    requires |q| == |q'| && forall i | 0 <= i < |q| :: q[i].valid == q'[i].valid && q[i].request == q'[i].request
    ensures QueuedCount(q, x) == QueuedCount(q', x)
  {
    if q != [] { QueuedSame(q[..|q| - 1], q'[..|q| - 1], x); }
  }

  lemma {:induction false} NoneInFree(q: seq<MemRef>, x: Request)
    requires forall i | 0 <= i < |q| :: !q[i].valid
    ensures QueuedCount(q, x) == 0
  {
    if q != [] { NoneInFree(q[..|q| - 1], x); }
  }

  // ---------- slots ----------

  /** The free list holds exactly the invalid slots, once each. */
  predicate SlotsKept(cfg: Config, ch: Chan) {
    && Shape(cfg, ch)
    && (forall a, b | 0 <= a < b < |ch.free| :: ch.free[a] != ch.free[b])
    && (forall i: nat | i < cfg.queueSize :: i in ch.free <==> !ch.q[i].valid)
    && ch.occupancy == cfg.queueSize - |ch.free|
  }

  lemma EnqueueKeepsSlots(cfg: Config, ch: Chan)
    requires SlotsKept(cfg, ch) && ch.free != [] && ch.arrivals != []
    ensures SlotsKept(cfg, Enqueue(cfg, ch)) && !ch.q[ch.free[0]].valid
  {
    var ch' := Enqueue(cfg, ch);
    assert ch.free[0] in ch.free;
    forall i: nat | i < cfg.queueSize ensures i in ch'.free <==> !ch'.q[i].valid {
      assert ch.free == [ch.free[0]] + ch'.free;
    }
  }

  lemma IssueKeepsSlots(cfg: Config, ch: Chan, i: nat)
    requires SlotsKept(cfg, ch) && Ready(cfg, ch, i)
    ensures SlotsKept(cfg, Issue(cfg, ch, i).ch)
  {
    var ch' := Issue(cfg, ch, i).ch;
    if Needs(ch.q[i]).value.Cas() {
      assert i !in ch.free;
      forall k: nat | k < cfg.queueSize ensures k in ch'.free <==> !ch'.q[k].valid {
        assert k in ch.free ==> k in ch'.free;
      }
    }
  }

  // ---------- requests ----------

  /** The waiting requests are the last ones to arrive, in order. */
  predicate WaitingAreLast(r: Run) {
    && |r.ch.arrivals| <= |r.arrived|
    && r.ch.arrivals == r.arrived[|r.arrived| - |r.ch.arrivals|..]
  }

  /** The requests that have entered the scheduling queue. */
  function Entered(r: Run): seq<Request>
    requires WaitingAreLast(r)
  {
    r.arrived[..|r.arrived| - |r.ch.arrivals|]
  }

  /** As often as request x entered the queue, it is queued now or completed. */
  predicate Balanced(r: Run, x: Request)
    requires WaitingAreLast(r)
  {
    Count(Entered(r), x) == QueuedCount(r.ch.q, x) + DoneCount(r.done, x)
  }

  predicate Kept(cfg: Config, r: Run, x: Request) {
    SlotsKept(cfg, r.ch) && WaitingAreLast(r) && Balanced(r, x)
  }

  lemma EnqueueKeepsRequests(cfg: Config, r: Run, x: Request)
    requires Kept(cfg, r, x) && r.ch.free != [] && r.ch.arrivals != []
    ensures Kept(cfg, r.(ch := Enqueue(cfg, r.ch)), x)
  {
    EnqueueKeepsSlots(cfg, r.ch);
    QueuedUpdate(r.ch.q, r.ch.free[0], NewRef(cfg, r.ch, r.ch.arrivals[0]), x);
    var r' := r.(ch := Enqueue(cfg, r.ch));
    var n := |r.arrived| - |r.ch.arrivals|;
    assert r.arrived[n] == r.ch.arrivals[0];
    assert r'.ch.arrivals == r.arrived[n + 1..];
    assert Entered(r') == Entered(r) + [r.ch.arrivals[0]];
  }

  lemma {:induction false} EnqueueAllKeepsRequests(cfg: Config, r: Run, x: Request)
    requires Kept(cfg, r, x)
    ensures Kept(cfg, r.(ch := EnqueueAll(cfg, r.ch)), x)
    decreases |r.ch.arrivals|
  {
    if r.ch.free != [] && r.ch.arrivals != [] {
      EnqueueKeepsRequests(cfg, r, x);
      EnqueueAllKeepsRequests(cfg, r.(ch := Enqueue(cfg, r.ch)), x);
    }
  }

  lemma IssueMovesRequest(cfg: Config, ch: Chan, i: nat, done: seq<MemRef>, x: Request)
    requires Shape(cfg, ch) && Ready(cfg, ch, i)
    ensures var o := Issue(cfg, ch, i);
      QueuedCount(o.ch.q, x) + DoneCount(Log(done, o.done), x) == QueuedCount(ch.q, x) + DoneCount(done, x)
  {
    var o := Issue(cfg, ch, i);
    if o.done.Some? {
      QueuedUpdate(ch.q, i, Complete(ch.q[i]), x);
      assert Log(done, o.done)[..|done|] == done;
    } else {
      QueuedSame(ch.q, o.ch.q, x);
    }
  }

  lemma KeptArrival(cfg: Config, r: Run, e: Event, x: Request)
    requires Kept(cfg, r, x) && e.Arrival?
    ensures Kept(cfg, Step(cfg, r, e), x)
  {
    var r' := Step(cfg, r, e);
    assert r'.ch.arrivals == r'.arrived[|r'.arrived| - |r'.ch.arrivals|..];
    assert Entered(r') == Entered(r);
  }

  lemma KeptPrepare(cfg: Config, r: Run, x: Request)
    requires Kept(cfg, r, x)
    ensures Kept(cfg, r.(ch := Prepare(cfg, r.ch)), x)
  {
    var r1 := r.(ch := Advance(cfg, r.ch));
    assert Entered(r1) == Entered(r);
    EnqueueAllKeepsRequests(cfg, r1, x);
  }

  lemma KeptIssue(cfg: Config, r: Run, i: nat, x: Request)
    requires Kept(cfg, r, x) && Ready(cfg, r.ch, i)
    ensures var o := Issue(cfg, r.ch, i); Kept(cfg, r.(ch := o.ch, done := Log(r.done, o.done)), x)
  {
    hide QueuedCount, DoneCount, Log;
    IssueKeepsSlots(cfg, r.ch, i);
    IssueMovesRequest(cfg, r.ch, i, r.done, x);
    var o := Issue(cfg, r.ch, i);
    assert Entered(r.(ch := o.ch, done := Log(r.done, o.done))) == Entered(r);
  }

  lemma KeptStep(cfg: Config, r: Run, e: Event, x: Request)
    requires Kept(cfg, r, x)
    ensures Kept(cfg, Step(cfg, r, e), x)
  {
    if e.Arrival? {
      KeptArrival(cfg, r, e, x);
    } else {
      KeptPrepare(cfg, r, x);
      var r2 := r.(ch := Prepare(cfg, r.ch));
      var i := Decide(cfg, e.p, r2.ch);
      if i.Some? {
        KeptIssue(cfg, r2, i.value, x);
        var o := Issue(cfg, r2.ch, i.value);
        KeptSameTrace(cfg, r2.(ch := o.ch, done := Log(r2.done, o.done)), Step(cfg, r, e), x);
      } else {
        KeptSameTrace(cfg, r2, Step(cfg, r, e), x);
      }
    }
  }

  /** The commands sent do not matter to the requests. */
  lemma KeptSameTrace(cfg: Config, r: Run, r': Run, x: Request)
    requires Kept(cfg, r, x) && r'.ch == r.ch && r'.done == r.done && r'.arrived == r.arrived
    ensures Kept(cfg, r', x)
  {
    assert Entered(r') == Entered(r);
  }

  lemma {:induction false} KeptRun(cfg: Config, events: seq<Event>, x: Request)
    requires cfg.Valid()
    ensures Kept(cfg, Exec(cfg, events), x)
  {
    if events == [] {
      NoneInFree(Init(cfg).q, x);
      forall i: nat | i < cfg.queueSize ensures i in Init(cfg).free { assert Init(cfg).free[i] == i; }
    } else {
      KeptRun(cfg, events[..|events| - 1], x);
      KeptStep(cfg, Exec(cfg, events[..|events| - 1]), events[|events| - 1], x);
    }
  }

  /** In every run of either scheduler the free list is exactly the invalid slots, once each; requests leave the
      arrival queue in arrival order; and every request that left it is queued or completed, exactly once. */
  lemma Conservation(cfg: Config, events: seq<Event>)
    requires cfg.Valid()
    ensures var r := Exec(cfg, events);
      && SlotsKept(cfg, r.ch) && WaitingAreLast(r)
      && forall x: Request :: Balanced(r, x)
  {
    KeptRun(cfg, events, Request(0, 0, MemRead));
    forall x: Request ensures Balanced(Exec(cfg, events), x) { KeptRun(cfg, events, x); }
  }

  // ---------- one request, one place ----------

  /** Requests are numbered as they arrive, so no two are the same. */
  predicate Numbered(arrived: seq<Request>) {
    forall k | 0 <= k < |arrived| :: arrived[k].id == k
  }

  lemma {:induction false} NumberedRun(cfg: Config, events: seq<Event>)
    requires cfg.Valid()
    ensures Numbered(Exec(cfg, events).arrived)
  {
    if events != [] { NumberedRun(cfg, events[..|events| - 1]); }
  }

  lemma {:induction false} NumberedOnce(arrived: seq<Request>, x: Request)
    requires Numbered(arrived)
    ensures Count(arrived, x) == if x in arrived then 1 else 0
  {
    if arrived != [] {
      var n := |arrived| - 1;
      NumberedOnce(arrived[..n], x);
      assert arrived == arrived[..n] + [arrived[n]];
    }
  }

  /** How often request x is about: waiting, queued, completed. */
  function Copies(r: Run, x: Request): nat {
    Count(r.ch.arrivals, x) + QueuedCount(r.ch.q, x) + DoneCount(r.done, x)
  }

  /** In every run each request that arrived is in exactly one place, and no other request is anywhere. */
  lemma InOnePlace(cfg: Config, events: seq<Event>, x: Request)
    requires cfg.Valid()
    ensures var r := Exec(cfg, events); Copies(r, x) == if x in r.arrived then 1 else 0
  {
    var r := Exec(cfg, events);
    KeptRun(cfg, events, x);
    NumberedRun(cfg, events);
    NumberedOnce(r.arrived, x);
    assert r.arrived == Entered(r) + r.ch.arrivals;
  }

  lemma {:induction false} DoneIsCounted(done: seq<MemRef>, d: nat, x: Request)
    requires d < |done| && done[d].request == Some(x)
    ensures DoneCount(done, x) >= 1
  {
    if d < |done| - 1 { DoneIsCounted(done[..|done| - 1], d, x); }
  }

  /** Request x has completed, once, and is nowhere else. */
  predicate DoneOnce(r: Run, x: Request) {
    x in r.arrived && x !in r.ch.arrivals && QueuedCount(r.ch.q, x) == 0 && DoneCount(r.done, x) == 1
  }

  lemma DoneMeansOnce(cfg: Config, events: seq<Event>, d: nat, x: Request)
    requires cfg.Valid() && d < |Exec(cfg, events).done| && Exec(cfg, events).done[d].request == Some(x)
    ensures DoneOnce(Exec(cfg, events), x)
  {
    InOnePlace(cfg, events, x);
    DoneIsCounted(Exec(cfg, events).done, d, x);
  }

  // ---------- completion order ----------

  predicate StampsOrdered(r: Run) {
    && (forall i | 0 <= i < |r.ch.q| && r.ch.q[i].valid :: r.ch.q[i].ts <= r.ch.clock)
    && (forall d, i | 0 <= d < |r.done| && 0 <= i < |r.ch.q| && r.ch.q[i].valid :: r.done[d].ts <= r.ch.q[i].ts)
    && (forall d, e | 0 <= d < e < |r.done| :: r.done[d].ts <= r.done[e].ts)
    && (forall d | 0 <= d < |r.done| :: r.done[d].ts <= r.ch.clock)
  }

  lemma {:induction false} EnqueueAllKeepsStamps(cfg: Config, r: Run)
    requires Shape(cfg, r.ch) && StampsOrdered(r)
    ensures StampsOrdered(r.(ch := EnqueueAll(cfg, r.ch)))
    decreases |r.ch.arrivals|
  {
    if r.ch.free != [] && r.ch.arrivals != [] { EnqueueAllKeepsStamps(cfg, r.(ch := Enqueue(cfg, r.ch))); }
  }

  lemma FcfsKeepsStamps(cfg: Config, r: Run)
    requires Shape(cfg, r.ch) && StampsOrdered(r)
    ensures var o := ScheduleFcfs(cfg, r.ch); StampsOrdered(r.(ch := o.ch, done := Log(r.done, o.done)))
  {
    PickIsFirst(r.ch.q, ValidOnes(r.ch), r.ch.clock, |r.ch.q|);
    var o := ScheduleFcfs(cfg, r.ch);
    if o.done.Some? {
      var i := Oldest(r.ch).value;
      forall k | 0 <= k < |r.ch.q| && r.ch.q[k].valid ensures r.ch.q[i].ts <= r.ch.q[k].ts {
        assert ValidOnes(r.ch)[k];
      }
    }
  }

  lemma FcfsCycleKeepsStamps(cfg: Config, r: Run)
    requires Shape(cfg, r.ch) && StampsOrdered(r)
    ensures StampsOrdered(Step(cfg, r, Cycle(Fcfs)))
  {
    var r1 := r.(ch := Advance(cfg, r.ch));
    assert StampsOrdered(r1);
    EnqueueAllKeepsStamps(cfg, r1);
    hide EnqueueAll, ScheduleFcfs, StampsOrdered;
    FcfsKeepsStamps(cfg, r.(ch := Prepare(cfg, r.ch)));
    var o := ScheduleFcfs(cfg, Prepare(cfg, r.ch));
    StampsSameTrace(r.(ch := o.ch, done := Log(r.done, o.done)), Step(cfg, r, Cycle(Fcfs)));
  }

  lemma StampsSameTrace(r: Run, r': Run)
    requires StampsOrdered(r) && r'.ch == r.ch && r'.done == r.done
    ensures StampsOrdered(r')
  {
  }

  /** Under the first-come scheduler references complete in the order of their time stamps. */
  lemma {:induction false} FcfsCompletesInOrder(cfg: Config, events: seq<Event>)
    requires cfg.Valid() && forall k | 0 <= k < |events| && events[k].Cycle? :: events[k].p.Fcfs?
    ensures StampsOrdered(Exec(cfg, events))
  {
    if events != [] {
      var r := Exec(cfg, events[..|events| - 1]);
      FcfsCompletesInOrder(cfg, events[..|events| - 1]);
      if events[|events| - 1].Cycle? { FcfsCycleKeepsStamps(cfg, r); }
    }
  }
}
