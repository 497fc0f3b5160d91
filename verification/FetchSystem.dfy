/**
 The fetch pipeline as the simulator runs it: one object whose pools, queues and
 counters are updated in place.
 */
module FetchSystem {
  import opened Options
  import F = Fetch
  import opened Fetch
  import opened FetchRuns

  /** The received bucket that is next in order is the one the scan finds: no two have the same place. */
  lemma {:induction false} NextIs(cfg: Config, s: State, b: nat, n: nat)
    requires Core(cfg, s) && b in s.received && s.buckets[b].id == s.minItem && b < n <= |s.buckets|
    ensures NextReceived(s, n) == Some(b)
  {
    hide Conserved, Ordered, Up, Credits;
    if n - 1 != b { NextIs(cfg, s, b, n - 1); }
  }

  /** No bucket received is behind the next in order. */
  lemma Ahead(cfg: Config, s: State)
    requires Core(cfg, s)
    ensures forall b | b in s.received :: s.minItem <= s.buckets[b].id
  {
    forall b | b in s.received ensures s.minItem <= s.buckets[b].id { assert Untouched(cfg, s.buckets[b], s.starts, s.minItem); }
  }

  /** If the first one received is not next in order, none is. */
  lemma NoneNext(cfg: Config, s: State)
    requires Shape(cfg, s) && forall b | b in s.received :: s.buckets[b].id != s.minItem
    ensures ClearItems(cfg, s) == s
  {
  }

  /** The next received bucket in order is taken in. */
  lemma NextInOrder(cfg: Config, s: State, b: nat)
    requires Shape(cfg, s) && Core(cfg, s) && Room(cfg, s) && b in s.received && s.buckets[b].id == s.minItem
    ensures NextReceived(s, |s.buckets|) == Some(b)
    ensures var s' := Deliver(cfg, s.(received := s.received - {b}), b); Core(cfg, s') && Room(cfg, s')
  {
    NextIs(cfg, s, b, |s.buckets|);
    hide Core, Room;
    TakeReceived(cfg, s, b);
    RoomSame(cfg, s, s.(received := s.received - {b}));
    DeliverCore(cfg, s.(received := s.received - {b}), b);
  }

  /** So is one whose answer comes in order. */
  lemma AnswerInOrder(cfg: Config, s: State, b: nat)
    requires Shape(cfg, s) && Core(cfg, s) && Room(cfg, s) && b in s.requested && s.buckets[b].id == s.minItem
    ensures var s' := Deliver(cfg, Answered(s, b), b); Core(cfg, s') && Room(cfg, s')
  {
    hide Core, Room;
    AnsweredNext(cfg, s, b);
    RoomSame(cfg, s, Answered(s, b));
    DeliverCore(cfg, Answered(s, b), b);
  }

  /** Having issued i instructions, state t is on the way from s to what issuing k of them leads to. */
  predicate OnTheWay(cfg: Config, s: State, k: nat, t: State, i: nat)
    requires Shape(cfg, s)
  {
    i <= k && Shape(cfg, t) && IssueUpTo(cfg, s, k) == (IssueUpTo(cfg, t, k - i).0, IssueUpTo(cfg, t, k - i).1 + i)
  }

  lemma OneFurther(cfg: Config, s: State, k: nat, t: State, i: nat)
    requires Shape(cfg, s) && OnTheWay(cfg, s, k, t, i) && i < k
    requires t.instQueue != [] && t.buckets[t.instQueue[0]].insts != []
    ensures OnTheWay(cfg, s, k, IssueOne(cfg, t), i + 1)
  {
  }

  lemma Arrived(cfg: Config, s: State, k: nat, t: State, i: nat)
    requires Shape(cfg, s) && OnTheWay(cfg, s, k, t, i) && (i == k || t.instQueue == [])
    ensures IssueUpTo(cfg, s, k) == (t, i)
  {
  }

  /** The state once an emptied bucket has left the queue for the pool. */
  function Returned(s: State): State
    requires s.instQueue != []
  {
    s.(pool := s.pool + [s.instQueue[0]], instQueue := s.instQueue[1..])
  }

  /** Where the issue stands when the bucket at the head of the queue may have been emptied, but not yet returned. */
  ghost predicate Issuing(cfg: Config, s: State, k: nat, now: State, i: nat)
    requires Shape(cfg, s)
  {
    && Shape(cfg, now) && now.instQueue != []
    && var t := if now.buckets[now.instQueue[0]].insts == [] then Returned(now) else now;
       Core(cfg, t) && NextUnanswered(cfg, t) && OnTheWay(cfg, s, k, t, i)
  }

  /** The state after an instruction was taken off the bucket at the head, which is not yet returned. */
  function Popped(cfg: Config, s: State): State
    requires Shape(cfg, s) && s.instQueue != [] && s.buckets[s.instQueue[0]].insts != []
  {
    var b := s.instQueue[0];
    var insts := s.buckets[b].insts;
    s.(issued := s.issued + [insts[0]], buckets := s.buckets[b := s.buckets[b].(insts := insts[1..])])
  }

  lemma IssuingNext(cfg: Config, s: State, k: nat, now: State, i: nat)
    requires Shape(cfg, s) && Issuing(cfg, s, k, now, i) && i < k && now.buckets[now.instQueue[0]].insts != []
    ensures Issuing(cfg, s, k, Popped(cfg, now), i + 1)
  {
    hide Core, NextUnanswered, OnTheWay;
    IssueOneCore(cfg, now);
    OneFurther(cfg, s, k, now, i);
    var p := Popped(cfg, now);
    assert IssueOne(cfg, now) == if p.buckets[p.instQueue[0]].insts == [] then Returned(p) else p;
  }

  lemma StartOnTheWay(cfg: Config, s: State, k: nat)
    requires Shape(cfg, s)
    ensures OnTheWay(cfg, s, k, s, 0)
  {
  }

  lemma NotPast(cfg: Config, s: State, k: nat, now: State, i: nat)
    requires Shape(cfg, s) && Issuing(cfg, s, k, now, i)
    ensures i <= k && (now.buckets[now.instQueue[0]].insts != [] ==> OnTheWay(cfg, s, k, now, i))
  {
  }

  lemma PopShrinks(cfg: Config, s: State)
    requires Shape(cfg, s) && s.instQueue != [] && s.buckets[s.instQueue[0]].insts != []
    ensures var s' := Popped(cfg, s);
      s'.instQueue == s.instQueue && |s'.buckets[s.instQueue[0]].insts| < |s.buckets[s.instQueue[0]].insts|
  {
  }

  lemma KeptParts(cfg: Config, s: State)
    requires Kept(cfg, s)
    ensures Core(cfg, s) && NextUnanswered(cfg, s)
  {
  }

  class PipeQueue {
    const cfg: Config
    var now: nat
    var buckets: seq<Bucket>
    var pool: seq<nat>
    var requested: set<nat>
    var received: set<nat>
    var buffer: seq<nat>
    var instQueue: seq<nat>
    var minItem: nat
    var nIRequests: int
    var space: int
    var issued: seq<nat>
    var starts: seq<nat>

    ghost function Now(): State
      reads this
    {
      State(now, buckets, pool, requested, received, buffer, instQueue, minItem, nIRequests, space, issued, starts)
    }

    constructor (cfg: Config)
      requires cfg.Valid()
      ensures this.cfg == cfg && Now() == Init(cfg) && Kept(cfg, Now())
    {
      this.cfg := cfg;
      now, minItem, issued, starts := 0, 0, [], [0];
      buckets := seq(cfg.Buckets(), b => Bucket(0, 0, []));
      pool := seq(cfg.Buckets(), b requires 0 <= b => b);
      requested, received, buffer, instQueue := {}, {}, [], [];
      nIRequests, space := cfg.maxReqs, cfg.instQueueSize;
      new;
      InitKept(cfg);
    }

    /** A free bucket for the next request, if one may be made. */
    method NewItem() returns (b: Option<nat>)
      requires Shape(cfg, Now())
      modifies this`nIRequests, this`pool, this`buckets, this`requested
      ensures b == if Requestable(old(Now())) then Some(old(pool)[|old(pool)| - 1]) else None
      ensures b.None? ==> Now() == old(Now())
      ensures b.Some? ==> b.value < |old(buckets)| && Now() == old(Now()).(nIRequests := old(nIRequests) - 1,
        pool := old(pool)[..|old(pool)| - 1], requested := old(requested) + {b.value},
        buckets := old(buckets)[b.value := old(buckets)[b.value].(id := MaxItem(old(Now())))])
    {
      if nIRequests == 0 || pool == [] { return None; }
      nIRequests := nIRequests - 1;
      var last := pool[|pool| - 1];
      pool := pool[..|pool| - 1];
      buckets := buckets[last := buckets[last].(id := |starts| - 1)];
      requested := requested + {last};
      return Some(last);
    }

    /** Fetches the next n instructions into a new bucket, if there is one. */
    method Fetch(n: nat)
      requires Shape(cfg, Now())
      modifies this
      ensures Now() == Request(cfg, old(Now()), n)
    {
      var b := NewItem();
      if b.Some? {
        var first := starts[|starts| - 1];
        buckets := buckets[b.value := buckets[b.value].(insts := Range(first, first + n))];
        starts := starts + [first + n];
      }
    }

    method DoneItem(b: nat)
      modifies this`pool
      ensures pool == old(pool) + [b]
    {
      pool := pool + [b];
    }

    /** The bucket just put in order goes to the buffer, or to the pool if it is empty. */
    method Append(b: nat)
      requires Shape(cfg, Now()) && b < |buckets|
      modifies this`minItem, this`pool, this`buffer
      ensures Now() == Deliver(cfg, old(Now()), b)
    {
      minItem := minItem + 1;
      if buckets[b].insts == [] { DoneItem(b); } else { buffer := buffer + [b]; }
    }

    /** The received bucket that comes first in order. */
    method Top() returns (b: nat)
      requires Shape(cfg, Now()) && received != {}
      ensures b in received && forall c | c in received :: buckets[b].id <= buckets[c].id
    {
      var some :| some in received;
      b := some;
      var i := 0;
      while i < |buckets|
        invariant 0 <= i <= |buckets| && b in received
        invariant forall c: nat | c < i && c in received :: buckets[b].id <= buckets[c].id
      {
        if i in received && buckets[i].id < buckets[b].id { b := i; }
        i := i + 1;
      }
    }

    /** Takes early buckets in as long as they are next in order. */
    method ClearItems()
      requires Shape(cfg, Now()) && Core(cfg, Now()) && Room(cfg, Now())
      modifies this`received, this`minItem, this`pool, this`buffer
      ensures Now() == F.ClearItems(cfg, old(Now()))
    {
      hide Core, Room;
      while received != {}
        invariant Shape(cfg, Now()) && Core(cfg, Now()) && Room(cfg, Now())
        invariant F.ClearItems(cfg, Now()) == F.ClearItems(cfg, old(Now()))
        decreases |received|
      {
        var b := Top();
        Ahead(cfg, Now());
        if buckets[b].id != minItem { break; }
        NextInOrder(cfg, Now(), b);
        received := received - {b};
        Append(b);
      }
      NoneNext(cfg, Now());
    }

    /** The cache has answered for bucket b. */
    method ReadyItem(b: nat)
      requires Shape(cfg, Now()) && Core(cfg, Now()) && Room(cfg, Now()) && b in requested
      modifies this
      ensures Now() == F.ReadyItem(cfg, old(Now()), b)
    {
      hide Core, Room;
      if buckets[b].id == minItem { AnswerInOrder(cfg, Now(), b); }
      buckets := buckets[b := buckets[b].(clock := now)];
      nIRequests := nIRequests + 1;
      requested := requested - {b};
      if buckets[b].id != minItem {
        received := received + {b};
        return;
      }
      Append(b);
      ClearItems();
    }

    /** The bucket at the head of the buffer, once it has been in the pipeline long enough. */
    method NextItem() returns (b: Option<nat>)
      requires Shape(cfg, Now())
      modifies this`buffer
      ensures b == if HeadDue(cfg, old(Now())) then Some(old(buffer)[0]) else None
      ensures buffer == if b.Some? then old(buffer)[1..] else old(buffer)
    {
      if buffer == [] { return None; }
      if buckets[buffer[0]].clock + cfg.length > now { return None; }
      b := Some(buffer[0]);
      buffer := buffer[1..];
    }
  
    /** Takes the first instruction off the bucket at the head of the queue, into the reorder buffer. */
    method Push()
      requires Shape(cfg, Now()) && instQueue != [] && buckets[instQueue[0]].insts != []
      modifies this`issued, this`buckets
      ensures Now() == Popped(cfg, old(Now()))
    {
      var bucket := instQueue[0];
      var insts := buckets[bucket].insts;
      issued := issued + [insts[0]];
      buckets := buckets[bucket := buckets[bucket].(insts := insts[1..])];
    }

    /** Pushes instructions into the reorder buffer, bucket by bucket, until the back end takes no more, the issue width
        is reached or the queue is empty; returns how many. */
    method Issue(accepted: nat) returns (i: nat)
      requires Shape(cfg, Now()) && Core(cfg, Now()) && NextUnanswered(cfg, Now())
      modifies this`issued, this`buckets, this`pool, this`instQueue
      ensures (Now(), i) == IssueUpTo(cfg, old(Now()), Min(accepted, cfg.issueWidth))
    {
      hide Core, NextUnanswered, OnTheWay, IssueUpTo, Popped;
      i := 0;
      ghost var s, k := Now(), Min(accepted, cfg.issueWidth);
      StartOnTheWay(cfg, s, k);
      while instQueue != []
        invariant Shape(cfg, Now()) && Core(cfg, Now()) && NextUnanswered(cfg, Now()) && OnTheWay(cfg, s, k, Now(), i)
        decreases |instQueue|
      {
        IssueOneCore(cfg, Now());
        ghost var queue := instQueue;
        while buckets[instQueue[0]].insts != []
          invariant instQueue == queue && Issuing(cfg, s, k, Now(), i)
          decreases |buckets[instQueue[0]].insts|
        {
          NotPast(cfg, s, k, Now(), i);
          if i >= cfg.issueWidth || i >= accepted {
            Arrived(cfg, s, k, Now(), i);
            return;
          }
          IssuingNext(cfg, s, k, Now(), i);
          i := i + 1;
          ghost var before := Now();
          Push();
          PopShrinks(cfg, before);
        }
        DoneItem(instQueue[0]);
        instQueue := instQueue[1..];
      }
      Arrived(cfg, s, k, Now(), i);
    }

    /** One clock cycle: fetch if there is work, decode if there is room, rename what the back end takes. */
    method AdvanceClock(work: bool, n: nat, accepted: nat)
      requires Shape(cfg, Now()) && Kept(cfg, Now()) && n <= cfg.fetchWidth
      modifies this
      ensures Now() == F.AdvanceClock(cfg, old(Now()), work, n, accepted) && Kept(cfg, Now())
    {
      hide Kept, Core, NextUnanswered, Room;
      StepKept(cfg, Now(), Cycle(work, n, accepted));
      TimePasses(cfg, Now());
      now := now + 1;
      if work {
        RequestKept(cfg, Now(), n);
        Fetch(n);
      }
      DecodeKept(cfg, Now());
      DecodeStage();
      KeptParts(cfg, Now());
      var i := Issue(accepted);
      space := space + i;
    }

    /** With room for a whole bucket, the one that is due moves on. */
    method DecodeStage()
      requires Shape(cfg, Now())
      modifies this`buffer, this`space, this`instQueue
      ensures Now() == Decode(cfg, old(Now()))
    {
      if space >= cfg.fetchWidth {
        var bucket := NextItem();
        if bucket.Some? {
          space := space - |buckets[bucket.value].insts|;
          instQueue := instQueue + [bucket.value];
        }
      }
    }
  }
}
