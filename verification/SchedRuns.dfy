/**
 Runs of the scheduler: processes are spawned, stop, resume, suspend, wait, exit and
 change priority in any order.
 */
module SchedRuns {
  import opened Options
  import opened Sched
  import opened SchedFair
  import opened SchedRenice
  import opened SchedPrefix

  datatype Event =
    | Spawn(p: Pid, cpu: int, migrable: bool, stopped: bool)
    | Stop(p: Pid)
    | Unstop(p: Pid)
    | Suspend(p: Pid)
    | Resume(p: Pid)
    | Wait(p: Pid)
    | WakeUp(p: Pid)
    | Exit(p: Pid)
    | Renice(p: Pid, prio: int)

  /** What the system asserts of its callers; other calls are not made. */
  predicate Enabled(s: State, e: Event) {
    match e
    case Spawn(p, cpu, _, _) => p !in s.procs && -1 <= cpu < |s.flows|
    case Stop(p) => p in s.procs && s.procs[p].state.Runnable()
    case Unstop(p) => Is(s, p, InvalidState)
    case Suspend(p) => p in s.procs && s.procs[p].state.Runnable() && s.procs[p].suspended + 1 > 0
    case Resume(p) => Is(s, p, SuspendedState) && s.procs[p].suspended > 0
    case Wait(p) => Is(s, p, RunningState)
    case WakeUp(p) => Is(s, p, WaitingState)
    case Exit(p) => p in s.procs
    case Renice(p, _) => p in s.procs
  }

  function SetState(s: State, p: Pid, r: Proc): (s': State)
    requires Kept(s) && p in s.procs && !s.procs[p].state.Runnable()
    requires r == s.procs[p].(state := r.state, suspended := r.suspended) && !r.state.Runnable()
    ensures Kept(s')
  {
    assert p !in s.queue;
    s.(procs := s.procs[p := r])
  }

  function SetSuspended(s: State, p: Pid, n: int): (s': State)
    requires Kept(s) && p in s.procs
    ensures Kept(s')
  {
    s.(procs := s.procs[p := s.procs[p].(suspended := n)])
  }

  /** A new process; one mapped to a processor that may not migrate is pinned from the start. */
  function Create(s: State, p: Pid, cpu: int, migrable: bool): (s': State)
    requires Kept(s) && p !in s.procs && -1 <= cpu < |s.flows|
    ensures Kept(s') && Is(s', p, InvalidState)
  {
    s.(procs := s.procs[p := Proc(InvalidState, 0, cpu, migrable, !migrable && cpu >= 0, 0)])
  }

  function Destroy(s: State, p: Pid): (s': State)
    requires Kept(s) && p in s.procs && !s.procs[p].state.Runnable()
    ensures Kept(s')
  {
    assert p !in s.queue;
    s.(procs := s.procs - {p})
  }

  /** A runnable process stops and goes into a state in which it is not. */
  function Leave(s: State, p: Pid, st: RunState): (s': State)
    requires Kept(s) && p in s.procs && s.procs[p].state.Runnable() && !st.Runnable()
    ensures Kept(s')
  {
    var s1 := MakeNonRunnable(s, p);
    SetState(s1, p, s1.procs[p].(state := st))
  }

  /** A process leaves such a state and becomes runnable. */
  function Enter(s: State, p: Pid, suspended: int): (s': State)
    requires Kept(s) && p in s.procs && !s.procs[p].state.Runnable()
    ensures Kept(s')
  {
    MakeRunnable(SetState(s, p, s.procs[p].(state := InvalidState, suspended := suspended)), p)
  }

  function Step(s: State, e: Event): (s': State)
    requires Kept(s) && Enabled(s, e)
    ensures Kept(s')
  {
    match e
    case Spawn(p, cpu, migrable, stopped) =>
      var s1 := Create(s, p, cpu, migrable);
      if stopped then s1 else MakeRunnable(s1, p)
    case Stop(p) => MakeNonRunnable(s, p)
    case Unstop(p) => MakeRunnable(s, p)
    case Suspend(p) => Leave(SetSuspended(s, p, s.procs[p].suspended + 1), p, SuspendedState)
    case Resume(p) =>
      var n := s.procs[p].suspended - 1;
      if n <= 0 then Enter(s, p, n) else SetSuspended(s, p, n)
    case Wait(p) => Leave(s, p, WaitingState)
    case WakeUp(p) => Enter(s, p, s.procs[p].suspended)
    case Exit(p) => Destroy(if s.procs[p].state.Runnable() then MakeNonRunnable(s, p) else s, p)
    case Renice(p, prio) => SetPriority(s, p, prio)
  }

  /** No process, every processor idle; `order` lists all processors. */
  function Start(cpus: nat, order: seq<nat>): (s: State)
    requires forall c: nat | c < cpus :: c in order
    ensures Kept(s)
  {
    State(map[], [], seq(cpus, i => None), (set c | c in order && c < cpus), order)
  }

  /** A run; calls the system does not allow in a state are skipped. */
  function Run(s: State, events: seq<Event>): (s': State)
    requires Kept(s)
    ensures Kept(s')
  {
    if events == [] then s
    else
      var before := Run(s, events[..|events| - 1]);
      var e := events[|events| - 1];
      if Enabled(before, e) then Step(before, e) else before
  }

  // ---------- pinned processes ----------

  lemma FairSame(s: State, s': State)
    requires Fair(s) && s'.flows == s.flows
    requires forall x | Is(s', x, ReadyState) || Is(s', x, RunningState) ::
      x in s.procs && s'.procs[x] == s.procs[x].(suspended := s'.procs[x].suspended)
    ensures Fair(s')
  {
  }

  lemma LeaveFair(s: State, p: Pid, st: RunState)
    requires Kept(s) && Fair(s) && p in s.procs && s.procs[p].state.Runnable() && !st.Runnable()
    ensures Fair(Leave(s, p, st))
  {
    MakeNonRunnableFair(s, p);
    FairSame(MakeNonRunnable(s, p), Leave(s, p, st));
  }

  lemma EnterFair(s: State, p: Pid, suspended: int)
    requires Kept(s) && Fair(s) && p in s.procs && !s.procs[p].state.Runnable()
    ensures Fair(Enter(s, p, suspended))
  {
    var s1 := SetState(s, p, s.procs[p].(state := InvalidState, suspended := suspended));
    FairSame(s, s1);
    MakeRunnableFair(s1, p);
  }

  lemma SuspendedFair(s: State, p: Pid, n: int)
    requires Kept(s) && Fair(s) && p in s.procs
    ensures Fair(SetSuspended(s, p, n))
  {
    FairSame(s, SetSuspended(s, p, n));
  }

  lemma CreateFair(s: State, p: Pid, cpu: int, migrable: bool)
    requires Kept(s) && Fair(s) && p !in s.procs && -1 <= cpu < |s.flows|
    ensures Fair(Create(s, p, cpu, migrable))
  {
    FairSame(s, Create(s, p, cpu, migrable));
  }

  lemma DestroyFair(s: State, p: Pid)
    requires Kept(s) && Fair(s) && p in s.procs && !s.procs[p].state.Runnable()
    ensures Fair(Destroy(s, p))
  {
    FairSame(s, Destroy(s, p));
  }

  /** A change of priority meets the exact condition under which it does no harm. */
  predicate Careful(s: State, e: Event)
    requires Kept(s) && Enabled(s, e)
  {
    e.Renice? ==> RenicesFairly(s, e.p, e.prio)
  }

  lemma FairStep(s: State, e: Event)
    requires Kept(s) && Fair(s) && Enabled(s, e)
    ensures Fair(Step(s, e)) <==> Careful(s, e)
  {
    hide MakeRunnable, MakeNonRunnable, SetPriority, RenicesFairly, Enter, Leave, Kept, Fair;
    match e {
      case Spawn(p, cpu, migrable, stopped) =>
        CreateFair(s, p, cpu, migrable);
        if !stopped { MakeRunnableFair(Create(s, p, cpu, migrable), p); }
      case Stop(p) => MakeNonRunnableFair(s, p);
      case Unstop(p) => MakeRunnableFair(s, p);
      case Suspend(p) =>
        SuspendedFair(s, p, s.procs[p].suspended + 1);
        LeaveFair(SetSuspended(s, p, s.procs[p].suspended + 1), p, SuspendedState);
      case Resume(p) =>
        var n := s.procs[p].suspended - 1;
        if n <= 0 { EnterFair(s, p, n); } else { SuspendedFair(s, p, n); }
      case Wait(p) => LeaveFair(s, p, WaitingState);
      case WakeUp(p) => EnterFair(s, p, s.procs[p].suspended);
      case Exit(p) =>
        if s.procs[p].state.Runnable() {
          MakeNonRunnableFair(s, p);
          DestroyFair(MakeNonRunnable(s, p), p);
        } else {
          DestroyFair(s, p);
        }
      case Renice(p, prio) => SetPriorityFairExactly(s, p, prio);
    }
  }

  ghost predicate FairThroughout(s: State, events: seq<Event>)
    requires Kept(s)
  {
    forall n | 0 <= n <= |events| :: Fair(Run(s, events[..n]))
  }

  ghost predicate CarefulThroughout(s: State, events: seq<Event>)
    requires Kept(s)
  {
    forall n | 0 <= n < |events| && Enabled(Run(s, events[..n]), events[n]) :: Careful(Run(s, events[..n]), events[n])
  }

  lemma RunOneMore(s: State, events: seq<Event>, n: nat)
    requires Kept(s) && n < |events|
    ensures var before := Run(s, events[..n]);
      Run(s, events[..n + 1]) == if Enabled(before, events[n]) then Step(before, events[n]) else before
  {
    assert events[..n + 1][..n] == events[..n];
  }

  lemma {:induction false} FairUpTo(s: State, events: seq<Event>, n: nat)
    requires Kept(s) && Fair(s) && CarefulThroughout(s, events) && n <= |events|
    ensures Fair(Run(s, events[..n]))
  {
    hide Kept, Fair, Step, Enabled, Careful;
    if n == 0 {
      assert events[..0] == [];
    } else {
      FairUpTo(s, events, n - 1);
      RunOneMore(s, events, n - 1);
      var before := Run(s, events[..n - 1]);
      if Enabled(before, events[n - 1]) { FairStep(before, events[n - 1]); }
    }
  }

  /** Pinned processes about: in a run, throughout, no ready process is strictly better than a running one on a processor
      it may use, and none may use an idle processor, exactly if every change of priority is a careful one. Nothing is
      asked of any other event. */
  lemma FairAlways(cpus: nat, order: seq<nat>, events: seq<Event>)
    requires forall c: nat | c < cpus :: c in order
    ensures FairThroughout(Start(cpus, order), events) <==> CarefulThroughout(Start(cpus, order), events)
    ensures CarefulThroughout(Start(cpus, order), events) ==> Fair(Run(Start(cpus, order), events))
  {
    var s := Start(cpus, order);
    assert Fair(s);
    if FairThroughout(s, events) {
      forall n | 0 <= n < |events| && Enabled(Run(s, events[..n]), events[n])
        ensures Careful(Run(s, events[..n]), events[n])
      {
        RunOneMore(s, events, n);
        FairStep(Run(s, events[..n]), events[n]);
      }
    }
    if CarefulThroughout(s, events) {
      forall n | 0 <= n <= |events| ensures Fair(Run(s, events[..n])) { FairUpTo(s, events, n); }
      assert events[..|events|] == events;
    }
  }

  /** The first of two processors runs 1; 2, which may use no other, waits for it. */
  function OneWaits(): State {
    State(map[1 := Proc(RunningState, 0, 0, true, false, 0), 2 := Proc(ReadyState, 0, 0, false, true, 0)],
          [1, 2], [Some(1), None], {1}, [0, 1])
  }

  function OneRuns(): State {
    State(map[1 := Proc(RunningState, 0, 0, true, false, 0)], [1], [Some(1), None], {1}, [0, 1])
  }

  lemma FirstSpawns()
    requires Kept(Start(2, [0, 1]))
    ensures Step(Start(2, [0, 1]), Spawn(1, -1, true, false)) == OneRuns()
  {
    hide Kept;
    var s1 := Create(Start(2, [0, 1]), 1, -1, true);
    assert s1 == State(map[1 := Proc(InvalidState, 0, -1, true, false, 0)], [], [None, None], {0, 1}, [0, 1]);
    var s2 := BecomeReady(s1, 1);
    assert s2.queue == [1];
    assert FreeCpu(s2, s1.procs[1]) == Some(0);
    assert SwitchIn(s2, 0, 1) == OneRuns();
  }

  lemma SecondWaits()
    requires Kept(OneRuns())
    ensures Step(OneRuns(), Spawn(2, 0, false, false)) == OneWaits()
  {
    hide Kept;
    var s1 := Create(OneRuns(), 2, 0, false);
    var s2 := BecomeReady(s1, 2);
    assert s2.queue == [1, 2];
    assert s2 == OneWaits();
  }

  lemma WaitingIsFair()
    requires Kept(OneWaits())
    ensures Fair(OneWaits())
  {
  }

  lemma WorseIsCareless()
    requires Kept(OneWaits())
    ensures !Careful(OneWaits(), Renice(1, 5))
  {
    hide Sorted, CpusKept, PinsKept;
    var s := OneWaits();
    assert IndexOf(s.queue, 1) == 0;
    assert PassedReady(WithPrio(s, 1, 5), 1, 2, 0) == Some(2);
    assert s.flows[1].None?;
  }

  /** A change of priority that is not careful: 1 made worse gives its processor to 2 and waits, the other one idle. */
  lemma CarelessRenice()
    ensures var before := Run(Start(2, [0, 1]), [Spawn(1, -1, true, false), Spawn(2, 0, false, false)]);
      Fair(before) && Enabled(before, Renice(1, 5)) && !Fair(Step(before, Renice(1, 5)))
  {
    hide Step, Kept, Careful, Fair;
    var s, es := Start(2, [0, 1]), [Spawn(1, -1, true, false), Spawn(2, 0, false, false)];
    assert es[..0] == [] && es[..2] == es;
    RunOneMore(s, es, 0);
    FirstSpawns();
    RunOneMore(s, es, 1);
    SecondWaits();
    assert Run(s, es) == OneWaits();
    WaitingIsFair();
    FairStep(OneWaits(), Renice(1, 5));
    WorseIsCareless();
  }

  // ---------- migratable processes ----------

  predicate SpawnsMigrable(e: Event) {
    e.Spawn? ==> e.migrable
  }

  lemma PrefixSame(s: State, s': State)
    requires Free(s) && Prefix(s) && |s'.flows| == |s.flows| && s'.queue == s.queue
    requires forall x | x in s.queue :: Is(s', x, RunningState) <==> Is(s, x, RunningState)
    requires forall x | x in s'.procs :: s'.procs[x].migrable && !s'.procs[x].pinned
    ensures Free(s') && Prefix(s')
  {
  }

  lemma PrefixSetState(s: State, p: Pid, r: Proc)
    requires Kept(s) && Free(s) && Prefix(s) && p in s.procs && !s.procs[p].state.Runnable()
    requires r == s.procs[p].(state := r.state, suspended := r.suspended) && !r.state.Runnable()
    ensures Free(SetState(s, p, r)) && Prefix(SetState(s, p, r))
  {
    PrefixSame(s, SetState(s, p, r));
  }

  lemma LeavePrefix(s: State, p: Pid, st: RunState)
    requires Kept(s) && Free(s) && Prefix(s) && p in s.procs && s.procs[p].state.Runnable() && !st.Runnable()
    ensures Free(Leave(s, p, st)) && Prefix(Leave(s, p, st))
  {
    MakeNonRunnablePrefix(s, p);
    var s1 := MakeNonRunnable(s, p);
    PrefixSetState(s1, p, s1.procs[p].(state := st));
  }

  lemma EnterPrefix(s: State, p: Pid, suspended: int)
    requires Kept(s) && Free(s) && Prefix(s) && p in s.procs && !s.procs[p].state.Runnable()
    ensures Free(Enter(s, p, suspended)) && Prefix(Enter(s, p, suspended))
  {
    var r := s.procs[p].(state := InvalidState, suspended := suspended);
    PrefixSetState(s, p, r);
    MakeRunnablePrefix(SetState(s, p, r), p);
  }

  lemma SuspendedPrefix(s: State, p: Pid, n: int)
    requires Kept(s) && Free(s) && Prefix(s) && p in s.procs
    ensures Free(SetSuspended(s, p, n)) && Prefix(SetSuspended(s, p, n))
  {
    PrefixSame(s, SetSuspended(s, p, n));
  }

  lemma CreatePrefix(s: State, p: Pid, cpu: int)
    requires Kept(s) && Free(s) && Prefix(s) && p !in s.procs && -1 <= cpu < |s.flows|
    ensures Free(Create(s, p, cpu, true)) && Prefix(Create(s, p, cpu, true))
  {
    PrefixSame(s, Create(s, p, cpu, true));
  }

  lemma DestroyPrefix(s: State, p: Pid)
    requires Kept(s) && Free(s) && Prefix(s) && p in s.procs && !s.procs[p].state.Runnable()
    ensures Free(Destroy(s, p)) && Prefix(Destroy(s, p))
  {
    PrefixSame(s, Destroy(s, p));
  }

  lemma PrefixStep(s: State, e: Event)
    requires Kept(s) && Free(s) && Prefix(s) && Enabled(s, e) && SpawnsMigrable(e)
    ensures Free(Step(s, e)) && Prefix(Step(s, e))
  {
    hide MakeRunnable, MakeNonRunnable, SetPriority, Enter, Leave, Kept, Free, Prefix;
    match e {
      case Spawn(p, cpu, migrable, stopped) =>
        CreatePrefix(s, p, cpu);
        if !stopped { MakeRunnablePrefix(Create(s, p, cpu, migrable), p); }
      case Stop(p) => MakeNonRunnablePrefix(s, p);
      case Unstop(p) => MakeRunnablePrefix(s, p);
      case Suspend(p) =>
        SuspendedPrefix(s, p, s.procs[p].suspended + 1);
        LeavePrefix(SetSuspended(s, p, s.procs[p].suspended + 1), p, SuspendedState);
      case Resume(p) =>
        var n := s.procs[p].suspended - 1;
        if n <= 0 { EnterPrefix(s, p, n); } else { SuspendedPrefix(s, p, n); }
      case Wait(p) => LeavePrefix(s, p, WaitingState);
      case WakeUp(p) => EnterPrefix(s, p, s.procs[p].suspended);
      case Exit(p) =>
        if s.procs[p].state.Runnable() {
          MakeNonRunnablePrefix(s, p);
          DestroyPrefix(MakeNonRunnable(s, p), p);
        } else {
          DestroyPrefix(s, p);
        }
      case Renice(p, prio) => SetPriorityPrefix(s, p, prio);
    }
  }

  lemma {:induction false} PrefixRun(cpus: nat, order: seq<nat>, events: seq<Event>)
    requires forall c: nat | c < cpus :: c in order
    requires forall k | 0 <= k < |events| :: SpawnsMigrable(events[k])
    ensures var s := Run(Start(cpus, order), events); Free(s) && Prefix(s)
  {
    if events != [] {
      PrefixRun(cpus, order, events[..|events| - 1]);
      var before := Run(Start(cpus, order), events[..|events| - 1]);
      if Enabled(before, events[|events| - 1]) { PrefixStep(before, events[|events| - 1]); }
    }
  }

  /** With processes that may migrate, in every run, changes of priority included, the running processes are exactly
      the first ones of a queue sorted by priority, as many as there are processors, each on a processor of its own. */
  lemma RunningIsPrefix(cpus: nat, order: seq<nat>, events: seq<Event>)
    requires forall c: nat | c < cpus :: c in order
    requires forall k | 0 <= k < |events| :: SpawnsMigrable(events[k])
    ensures var s := Run(Start(cpus, order), events);
      && (forall p | p in s.procs :: s.procs[p].state.Runnable() <==> p in s.queue)
      && (forall i, j | 0 <= i < j < |s.queue| :: Prio(s.procs, s.queue[i]) <= Prio(s.procs, s.queue[j]))
      && (forall i | 0 <= i < |s.queue| :: Is(s, s.queue[i], RunningState) <==> i < |s.flows|)
      && (forall p, q | Is(s, p, RunningState) && Is(s, q, RunningState) && p != q :: s.procs[p].cpu != s.procs[q].cpu)
  {
    PrefixRun(cpus, order, events);
  }
}
