/**
 What each event of a run makes of the process it is for, and what scheduling never touches.
 */
module SchedEvents {
  import opened Sched
  import opened SchedPlaces
  import opened SchedOrder
  import opened SchedRuns

  /** Priorities, migration rights and suspension counts are as before. */
  ghost predicate OnlyScheduled(s: State, s': State) {
    && s'.procs.Keys == s.procs.Keys
    && forall x | x in s.procs ::
         s'.procs[x].prio == s.procs[x].prio && s'.procs[x].migrable == s.procs[x].migrable && s'.procs[x].suspended == s.procs[x].suspended
  }

  /** Whoever but p was runnable still is, and whoever was not is as before. */
  ghost predicate OthersStay(s: State, s': State, p: Pid) {
    && s'.procs.Keys == s.procs.Keys
    && forall x | x in s.procs && x != p ::
         if s.procs[x].state.Runnable() then s'.procs[x].state.Runnable() else s'.procs[x] == s.procs[x]
  }

  ghost predicate IsRunnable(s: State, p: Pid) {
    p in s.procs && s.procs[p].state.Runnable()
  }

  lemma OnlyScheduledThrough(s: State, s2: State, s': State)
    requires OnlyScheduled(s, s2) && OnlyScheduled(s2, s')
    ensures OnlyScheduled(s, s')
  {
  }

  lemma WaitedSchedules(s: State, s1: State, p: Pid)
    requires Waited(s, s1, p)
    ensures OnlyScheduled(s, s1) && OthersStay(s, s1, p) && IsRunnable(s1, p)
  {
  }

  lemma SwitchInSchedules(s: State, c: nat, x: Pid, p: Pid)
    requires Is(s, x, ReadyState) && c < |s.flows| && s.procs[x].MayUse(c)
    ensures OnlyScheduled(s, SwitchIn(s, c, x)) && OthersStay(s, SwitchIn(s, c, x), p) && IsRunnable(SwitchIn(s, c, x), x)
  {
  }

  lemma StayThrough(s: State, s2: State, s': State, p: Pid)
    requires OthersStay(s, s2, p) && OthersStay(s2, s', p)
    ensures OthersStay(s, s', p)
  {
  }

  lemma QuietSchedules(s: State, p: Pid)
    requires Kept(s) && Is(s, p, InvalidState) && Kept(BecomeReady(s, p))
    requires FreeCpu(BecomeReady(s, p), s.procs[p]).Some? || (Known(s, |s.queue|) && Victim(s, |s.queue|, s.procs[p]).None?)
    ensures OnlyScheduled(s, MakeRunnable(s, p)) && OthersStay(s, MakeRunnable(s, p), p) && IsRunnable(MakeRunnable(s, p), p)
  {
    hide Distinct, Sorted, Insert, InsertPos, FreeCpu, Victim, QueueKept, OnlyScheduled, OthersStay, SwitchIn;
    BecomeReadyOnly(s, p);
    var s1 := BecomeReady(s, p);
    WaitedSchedules(s, s1, p);
    var c := FreeCpu(s1, s.procs[p]);
    if c.Some? {
      SwitchInSchedules(s1, c.value, p, p);
      OnlyScheduledThrough(s, s1, SwitchIn(s1, c.value, p));
      StayThrough(s, s1, SwitchIn(s1, c.value, p), p);
    }
  }

  /** Making a process runnable changes where processes run and nothing else about them, however far evictions spread; it
      is runnable then, and so is everybody who was. */
  lemma {:induction false} MakeRunnableSchedules(s: State, p: Pid)
    requires Kept(s) && Is(s, p, InvalidState)
    ensures OnlyScheduled(s, MakeRunnable(s, p)) && OthersStay(s, MakeRunnable(s, p), p) && IsRunnable(MakeRunnable(s, p), p)
    decreases |Worse(s, s.procs[p].prio)|
  {
    hide MakeRunnable, BecomeReady, Kept, Worse, OnlyScheduled, OthersStay, Replaced, Victim, FreeCpu, MadeRoom;
    var v, s2 := EvictsOrNot(s, p);
    if v.None? {
      QuietSchedules(s, p);
    } else {
      ReplacedSchedules(s, s2, p, v.value);
      MakeRunnableSchedules(s2, v.value);
      OnlyScheduledThrough(s, s2, MakeRunnable(s2, v.value));
      OthersThrough(s, s2, MakeRunnable(s2, v.value), p, v.value);
    }
  }

  lemma OthersThrough(s: State, s2: State, s': State, p: Pid, v: Pid)
    requires Is(s, v, RunningState) && p in s.procs && Replaced(s, s2, p, v) && OthersStay(s2, s', v) && IsRunnable(s', v)
    ensures OthersStay(s, s', p) && IsRunnable(s', p)
  {
  }

  lemma ReplacedSchedules(s: State, s2: State, p: Pid, v: Pid)
    requires p in s.procs && v in s.procs && Replaced(s, s2, p, v)
    ensures OnlyScheduled(s, s2)
  {
  }

  lemma VacatedSchedules(s: State, p: Pid)
    requires Kept(s) && Is(s, p, RunningState) && 0 <= s.procs[p].cpu < |s.flows| && p in s.queue
    ensures OnlyScheduled(s, Vacated(s, p)) && OthersStay(s, Vacated(s, p), p)
  {
    hide Kept, RemoveAt, IndexOf;
  }

  /** So does making it not runnable. */
  lemma MakeNonRunnableSchedules(s: State, p: Pid)
    requires Kept(s) && p in s.procs && s.procs[p].state.Runnable()
    ensures OnlyScheduled(s, MakeNonRunnable(s, p)) && OthersStay(s, MakeNonRunnable(s, p), p)
  {
    if s.procs[p].state.RunningState? { RunningLeaves(s, p); } else { WaitingSchedules(s, p); }
  }

  lemma WaitingSchedules(s: State, p: Pid)
    requires Kept(s) && Is(s, p, ReadyState)
    ensures OnlyScheduled(s, MakeNonRunnable(s, p)) && OthersStay(s, MakeNonRunnable(s, p), p)
  {
    hide RemoveAt, Distinct, Sorted, QueueGet, IndexOf, CpusKept, PinsKept;
    QueueRemoveKept(s, p);
  }

  lemma RunningLeaves(s: State, p: Pid)
    requires Kept(s) && Is(s, p, RunningState)
    ensures OnlyScheduled(s, MakeNonRunnable(s, p)) && OthersStay(s, MakeNonRunnable(s, p), p)
  {
    hide Kept, Vacated, QueueGet, OnlyScheduled, OthersStay, SwitchIn, MakeNonRunnable;
    VacatedIs(s, p);
    VacatedSchedules(s, p);
    var s2, c := Vacated(s, p), s.procs[p].cpu;
    var x := QueueGet(s2, c, 0);
    if x.Some? {
      SwitchInSchedules(s2, c, x.value, p);
      OnlyScheduledThrough(s, s2, SwitchIn(s2, c, x.value));
      StayThrough(s, s2, SwitchIn(s2, c, x.value), p);
    }
  }

  lemma SwappedSchedules(s1: State, c: nat, a: Pid, b: Pid)
    requires Is(s1, a, RunningState) && Is(s1, b, ReadyState) && c < |s1.flows| && s1.procs[b].MayUse(c)
    ensures var s' := SwitchIn(SwitchOut(s1, c, a), c, b);
      && OnlyScheduled(s1, s') && IsRunnable(s', a) && IsRunnable(s', b)
      && forall x | x in s1.procs && x != a && x != b :: s'.procs[x] == s1.procs[x]
  {
  }

  /** Everybody stays runnable, or not; a state of not being so stays as it is. */
  ghost predicate SameRunnable(s: State, s': State) {
    && s'.procs.Keys == s.procs.Keys
    && forall x | x in s.procs :: if s.procs[x].state.Runnable() then s'.procs[x].state.Runnable() else s'.procs[x].state == s.procs[x].state
  }

  lemma SwapRunnable(s: State, s1: State, s': State, a: Pid, b: Pid)
    requires SameRunnable(s, s1) && IsRunnable(s1, a) && IsRunnable(s1, b) && IsRunnable(s', a) && IsRunnable(s', b)
    requires s'.procs.Keys == s1.procs.Keys && forall x | x in s1.procs && x != a && x != b :: s'.procs[x] == s1.procs[x]
    ensures SameRunnable(s, s')
  {
  }

  /** A new priority leaves those of the others, and all else that scheduling does not touch. */
  lemma SetPrioritySchedules(s: State, p: Pid, prio: int)
    requires Kept(s) && p in s.procs
    ensures OnlyScheduled(WithPrio(s, p, prio), SetPriority(s, p, prio)) && SameRunnable(s, SetPriority(s, p, prio))
  {
    if prio == s.procs[p].prio {
      assert SetPriority(s, p, prio) == s;
    } else {
      RepositionOnly(s, p, prio);
      ReprioritizeKept(s, p, prio);
      hide QueueKept, PinsKept, Reprioritize, OnlyScheduled, SwitchIn, SwitchOut, SameRunnable, WithPrio;
      var (s1, other) := Reprioritize(s, p, prio);
      if prio > s.procs[p].prio && s1.procs[p].state.RunningState? && other.Some? {
        SwitchOutKept(s1, p);
        SwapStays(s, s1, p, prio, s1.procs[p].cpu, p, other.value);
      } else if prio < s.procs[p].prio && s1.procs[p].state.ReadyState? && other.Some? {
        SwitchOutKept(s1, other.value);
        SwapStays(s, s1, p, prio, s1.procs[other.value].cpu, other.value, p);
      }
    }
  }

  lemma SwapStays(s: State, s1: State, p: Pid, prio: int, c: nat, a: Pid, b: Pid)
    requires p in s.procs && OnlyScheduled(WithPrio(s, p, prio), s1) && SameRunnable(s, s1)
    requires Is(s1, a, RunningState) && Is(s1, b, ReadyState) && c < |s1.flows| && s1.procs[b].MayUse(c)
    ensures var s' := SwitchIn(SwitchOut(s1, c, a), c, b); OnlyScheduled(WithPrio(s, p, prio), s') && SameRunnable(s, s')
  {
    hide OnlyScheduled, SameRunnable, SwitchIn;
    SwappedSchedules(s1, c, a, b);
    var s' := SwitchIn(SwitchOut(s1, c, a), c, b);
    OnlyScheduledThrough(WithPrio(s, p, prio), s1, s');
    SameKeys(s1, s');
    SwapRunnable(s, s1, s', a, b);
  }

  lemma SameKeys(s: State, s': State)
    requires OnlyScheduled(s, s')
    ensures s'.procs.Keys == s.procs.Keys
  {
  }

  lemma RepositionOnly(s: State, p: Pid, prio: int)
    requires Kept(s) && p in s.procs && prio != s.procs[p].prio
    ensures var s1 := Reprioritize(s, p, prio).0;
      && s1.procs == s.procs[p := s.procs[p].(prio := prio)]
      && OnlyScheduled(WithPrio(s, p, prio), s1) && SameRunnable(s, s1) && s1.procs[p].state == s.procs[p].state
  {
    hide Sorted, Distinct, Move, Victim, PassedReady, InsertPos, DemoteEnd, IndexOf;
  }

  // ---------- events ----------

  /** A process's count says whether it is suspended. */
  ghost predicate CountsRight(s: State) {
    forall p | p in s.procs :: s.procs[p].suspended == if s.procs[p].state.SuspendedState? then 1 else 0
  }

  /** The state event e leaves its process in. */
  ghost predicate Outcome(s': State, e: Event) {
    match e
    case Spawn(p, cpu, migrable, stopped) =>
      && p in s'.procs && s'.procs[p].prio == 0 && s'.procs[p].migrable == migrable
      && (if stopped then s'.procs[p].state.InvalidState? && s'.procs[p].cpu == cpu else s'.procs[p].state.Runnable())
    case Stop(p) => Is(s', p, InvalidState)
    case Unstop(p) => IsRunnable(s', p)
    case Suspend(p) => Is(s', p, SuspendedState)
    case Resume(p) => IsRunnable(s', p)
    case Wait(p) => Is(s', p, WaitingState)
    case WakeUp(p) => IsRunnable(s', p)
    case Exit(p) => p !in s'.procs
    case Renice(p, prio) => p in s'.procs && s'.procs[p].prio == prio
  }

  /** Everybody else is runnable or in a state of not being so, with priority, right to migrate and count as before. */
  ghost predicate Elsewhere(s: State, s': State, p: Pid) {
    && (forall x | x != p :: x in s'.procs <==> x in s.procs)
    && forall x | x in s.procs && x != p ::
         && (if s.procs[x].state.Runnable() then s'.procs[x].state.Runnable() else s'.procs[x].state == s.procs[x].state)
         && s'.procs[x].prio == s.procs[x].prio && s'.procs[x].migrable == s.procs[x].migrable && s'.procs[x].suspended == s.procs[x].suspended
  }

  lemma ElsewhereFrom(s: State, s1: State, s': State, p: Pid)
    requires OnlyScheduled(s1, s') && OthersStay(s1, s', p)
    requires (forall x | x != p :: x in s1.procs <==> x in s.procs) && forall x | x in s.procs && x != p :: s1.procs[x] == s.procs[x]
    ensures Elsewhere(s, s', p)
  {
  }

  lemma SpawnMeans(s: State, e: Event)
    requires Kept(s) && Enabled(s, e) && e.Spawn?
    ensures Outcome(Step(s, e), e) && Elsewhere(s, Step(s, e), e.p)
    ensures e.p in Step(s, e).procs && Step(s, e).procs[e.p].suspended == 0
  {
    hide Kept, MakeRunnable, Elsewhere;
    var s1 := Create(s, e.p, e.cpu, e.migrable);
    CreateElsewhere(s, e.p, e.cpu, e.migrable);
    if !e.stopped {
      MakeRunnableSchedules(s1, e.p);
      ElsewhereFrom(s, s1, Step(s, e), e.p);
    }
  }

  lemma CreateElsewhere(s: State, p: Pid, cpu: int, migrable: bool)
    requires Kept(s) && p !in s.procs && -1 <= cpu < |s.flows|
    ensures Elsewhere(s, Create(s, p, cpu, migrable), p)
  {
    hide Kept;
  }

  lemma EnterMeans(s: State, p: Pid, suspended: int)
    requires Kept(s) && p in s.procs && !s.procs[p].state.Runnable()
    ensures var s' := Enter(s, p, suspended); IsRunnable(s', p) && Elsewhere(s, s', p) && s'.procs[p].suspended == suspended
  {
    var s1 := SetState(s, p, s.procs[p].(state := InvalidState, suspended := suspended));
    hide Kept, MakeRunnable;
    MakeRunnableSchedules(s1, p);
    ElsewhereFrom(s, s1, MakeRunnable(s1, p), p);
  }

  lemma LeaveMeans(s: State, p: Pid, st: RunState)
    requires Kept(s) && p in s.procs && s.procs[p].state.Runnable() && !st.Runnable()
    ensures var s' := Leave(s, p, st); Is(s', p, st) && Elsewhere(s, s', p) && s'.procs[p].suspended == s.procs[p].suspended
  {
    hide Kept, MakeNonRunnable;
    MakeNonRunnableSchedules(s, p);
  }

  lemma StopMeans(s: State, e: Event)
    requires Kept(s) && Enabled(s, e) && e.Stop?
    ensures Outcome(Step(s, e), e) && Elsewhere(s, Step(s, e), e.p) && Step(s, e).procs[e.p].suspended == s.procs[e.p].suspended
  {
    hide Kept, MakeNonRunnable;
    MakeNonRunnableSchedules(s, e.p);
  }

  lemma ExitMeans(s: State, e: Event)
    requires Kept(s) && Enabled(s, e) && e.Exit?
    ensures Outcome(Step(s, e), e) && Elsewhere(s, Step(s, e), e.p)
  {
    hide Kept, MakeNonRunnable;
    if s.procs[e.p].state.Runnable() { MakeNonRunnableSchedules(s, e.p); }
  }

  lemma ReniceMeans(s: State, e: Event)
    requires Kept(s) && Enabled(s, e) && e.Renice?
    ensures Outcome(Step(s, e), e) && Elsewhere(s, Step(s, e), e.p)
    ensures Step(s, e).procs[e.p].suspended == s.procs[e.p].suspended
    ensures Is(Step(s, e), e.p, SuspendedState) <==> Is(s, e.p, SuspendedState)
  {
    hide Kept, SetPriority;
    SetPrioritySchedules(s, e.p, e.prio);
  }

  lemma SuspendMeans(s: State, e: Event)
    requires Kept(s) && Enabled(s, e) && e.Suspend?
    ensures Outcome(Step(s, e), e) && Elsewhere(s, Step(s, e), e.p)
    ensures Step(s, e).procs[e.p].suspended == s.procs[e.p].suspended + 1
  {
    hide Kept, Leave;
    LeaveMeans(SetSuspended(s, e.p, s.procs[e.p].suspended + 1), e.p, SuspendedState);
  }

  /** In a state where the counts are right, each event leaves its process where it should be, and so the counts. */
  lemma EventMeans(s: State, e: Event)
    requires Kept(s) && Enabled(s, e) && CountsRight(s)
    ensures Outcome(Step(s, e), e) && Elsewhere(s, Step(s, e), e.p) && CountsRight(Step(s, e))
  {
    hide Kept, MakeRunnable, MakeNonRunnable, SetPriority, Leave, Enter, Elsewhere;
    match e {
      case Spawn(_, _, _, _) => SpawnMeans(s, e);
      case Stop(_) => StopMeans(s, e);
      case Unstop(p) => UnstopMeans(s, e);
      case Suspend(p) => SuspendMeans(s, e);
      case Resume(p) => EnterMeans(s, p, 0);
      case Wait(p) => LeaveMeans(s, p, WaitingState);
      case WakeUp(p) => EnterMeans(s, p, s.procs[p].suspended);
      case Exit(_) => ExitMeans(s, e);
      case Renice(_, _) => ReniceMeans(s, e);
    }
    CountsStay(s, Step(s, e), e.p);
  }

  lemma CountsStay(s: State, s': State, p: Pid)
    requires CountsRight(s) && Elsewhere(s, s', p)
    requires p in s'.procs ==> s'.procs[p].suspended == if s'.procs[p].state.SuspendedState? then 1 else 0
    ensures CountsRight(s')
  {
  }

  lemma UnstopMeans(s: State, e: Event)
    requires Kept(s) && Enabled(s, e) && e.Unstop?
    ensures Outcome(Step(s, e), e) && Elsewhere(s, Step(s, e), e.p) && Step(s, e).procs[e.p].suspended == s.procs[e.p].suspended
  {
    hide Kept, MakeRunnable;
    MakeRunnableSchedules(s, e.p);
    ElsewhereFrom(s, s, MakeRunnable(s, e.p), e.p);
  }

  lemma {:induction false} CountsAlways(cpus: nat, order: seq<nat>, events: seq<Event>)
    requires forall c: nat | c < cpus :: c in order
    ensures CountsRight(Run(Start(cpus, order), events))
  {
    if events != [] {
      var before, e := events[..|events| - 1], events[|events| - 1];
      CountsAlways(cpus, order, before);
      var s := Run(Start(cpus, order), before);
      if Enabled(s, e) { EventMeans(s, e); }
    }
  }

  /** In every run each event leaves its process where it should be: stopped, suspended, waiting, gone, or runnable, with
      the priority asked for; and nobody else becomes runnable or stops being so. */
  lemma EventsMean(cpus: nat, order: seq<nat>, events: seq<Event>, e: Event)
    requires forall c: nat | c < cpus :: c in order
    requires Enabled(Run(Start(cpus, order), events), e)
    ensures var s := Run(Start(cpus, order), events);
      Outcome(Step(s, e), e) && Elsewhere(s, Step(s, e), e.p)
  {
    hide Step, Outcome, Elsewhere, Run;
    CountsAlways(cpus, order, events);
    EventMeans(Run(Start(cpus, order), events), e);
  }
}
