/** What client threads bring about in the ring of processes: whoever is resumed, told to stop or added comes to be
    run, and a stopped runner leaves its loop, all by the runner's own steps. */
module ExecutorProgress {
  import opened Wrappers
  import opened Ring = TaskExecutor

  /** In every run: a process that is resumed, or told to stop, is running afterwards unless it had finished, the
      latter with its work flag cleared; nothing else changes for any process. */
  lemma {:induction false} MadeRunning(es: seq<Event>, e: Event, p: nat)
    requires Legal(es) && Enabled(Run(es), e)
    requires (e.Resume? && e.process == p) || (e.SetTerminated? && Run(es).clients[e.thread].terminated == p)
    ensures var was, now := Run(es).sh, Step(Run(es), e).sh;
      && p < |was.processes| && OthersStay(was.processes, now.processes, p)
      && now.processes[p].state == (if was.processes[p].state == Finished then Finished else Running)
      && now.processes[p].work == was.processes[p].work
      && now.ring == was.ring && now.working == was.working
  {
  }

  lemma {:induction false} ToldToStop(es: seq<Event>, t: nat, p: nat)
    requires Legal(es) && Enabled(Run(es), Terminate(t, p))
    ensures var was, now := Run(es).sh, Step(Run(es), Terminate(t, p)).sh;
      && OthersStay(was.processes, now.processes, p)
      && !now.processes[p].work && now.processes[p].state == was.processes[p].state
      && now.ring == was.ring && now.working == was.working
  {
  }

  /** The runner's own steps, with `outcome` saying what the coroutines say. */
  ghost predicate RunnersOwn(s: State, e: Event, outcome: nat -> ProcessState)
    requires Enabled(s, e)
  {
    e.Snapshot? || e.EndPass? || e.CheckWait? || OfPass(s, e, outcome)
  }

  /** The run goes on from `es` by steps of the runner only. */
  ghost predicate RunnerOnly(es: seq<Event>, all: seq<Event>, outcome: nat -> ProcessState)
    requires Legal(all)
  {
    es == all ||
    (|es| < |all| && RunnerOnly(es, all[..|all| - 1], outcome)
      && RunnersOwn(Run(all[..|all| - 1]), all[|all| - 1], outcome))
  }

  lemma {:induction false} OneMoreOwn(es: seq<Event>, all: seq<Event>, e: Event, outcome: nat -> ProcessState)
    requires Legal(all) && RunnerOnly(es, all, outcome) && |es| <= |all|
    requires Enabled(Run(all), e) && RunnersOwn(Run(all), e, outcome)
    ensures Legal(all + [e]) && Run(all + [e]) == Step(Run(all), e) && RunnerOnly(es, all + [e], outcome)
  {
    assert (all + [e])[..|all|] == all;
  }

  ghost predicate AboutToRunIt(s: State, p: nat) {
    s.runner.AboutToRun? && IsCurrent(s.runner, p)
  }

  /** A process of the ring runs on, and the runner will not go to sleep before it has seen it. */
  ghost predicate Wanted(s: State, p: nat) {
    && p in s.sh.ring && p < |s.sh.processes| && s.sh.processes[p].state == Running
    && s.sh.working && !s.runner.Sleeping? && !s.runner.Done?
    && (s.sh.wake || s.runner.LoopHead? || Ahead(s.runner, p))
  }

  /** The process still lies ahead in this pass. */
  ghost predicate Ahead(r: Runner, p: nat) {
    InPass(r) && r.pass.at <= |r.pass.list|
    && (p in r.pass.list[r.pass.at + (if r.HasRun? && r.pass.at < |r.pass.list| then 1 else 0)..])
  }

  function Stage(r: Runner, ahead: bool): nat {
    if ahead then 0 else if r.LoopHead? then 1 else if r.Parking? then 2 else 3
  }

  function NextOwn(s: State, outcome: nat -> ProcessState): (e: Event)
    requires s.runner.LoopHead? || s.runner.Parking? || InPass(s.runner)
    requires InPass(s.runner) ==> AtProcess(s, s.runner.pass) || Enabled(s, EndPass)
    ensures Enabled(s, e) && RunnersOwn(s, e, outcome)
  {
    if s.runner.LoopHead? then Snapshot
    else if s.runner.Parking? then CheckWait
    else if Enabled(s, EndPass) then EndPass
    else NextOfPass(s, outcome)
  }

  /** The runner comes to run a wanted process by its own steps. */
  lemma {:induction false} ComesToRun(es: seq<Event>, all: seq<Event>, p: nat, outcome: nat -> ProcessState)
    returns (more: seq<Event>)
    requires Legal(all) && RunnerOnly(es, all, outcome) && |es| <= |all| && Wanted(Run(all), p)
    ensures Legal(more) && RunnerOnly(es, more, outcome) && |all| <= |more| && AboutToRunIt(Run(more), p)
    decreases Stage(Run(all).runner, Ahead(Run(all).runner, p)), Left(Run(all).runner)
  {
    var s := Run(all);
    if AboutToRunIt(s, p) {
      more := all;
    } else {
      InvHolds(all);
      if InPass(s.runner) && !Enabled(s, EndPass) {
        AtKnownProcess(s);
      }
      var e := NextOwn(s, outcome);
      OneMoreOwn(es, all, e, outcome);
      WantedStep(s, e, p, outcome);
      more := ComesToRun(es, all + [e], p, outcome);
    }
  }

  /** A step of the runner that comes nearer to running the process. */
  ghost predicate Nearer(s: State, e: Event, p: nat)
    requires Enabled(s, e)
  {
    var now, next := s.runner, Step(s, e).runner;
    var before, after := Stage(now, Ahead(now, p)), Stage(next, Ahead(next, p));
    Wanted(Step(s, e), p) && (after < before || (after == before && Left(next) < Left(now)))
  }

  lemma {:induction false} WantedStep(s: State, e: Event, p: nat, outcome: nat -> ProcessState)
    requires Inv(s) && Wanted(s, p) && !AboutToRunIt(s, p) && Enabled(s, e) && RunnersOwn(s, e, outcome)
    ensures Nearer(s, e, p)
  {
    match e
    case Snapshot => SnapshotSees(s, p);
    case EndPass => EndPassKeeps(s, p);
    case CheckWait =>
    case Examine => ExamineMovesOn(s, p);
    case ReadNewState => ReadNewStateMovesOn(s, p);
    case ReadWork =>
    case RunOne(next) => RunOneKeeps(s, next, p);
  }

  lemma {:induction false} SnapshotSees(s: State, p: nat)
    requires Enabled(s, Snapshot) && Wanted(s, p)
    ensures Nearer(s, Snapshot, p)
  {
    assert s.sh.ring[0..] == s.sh.ring;
  }

  /** Who runs is not among those to be removed. */
  lemma {:induction false} EndPassKeeps(s: State, p: nat)
    requires Enabled(s, EndPass) && Wanted(s, p) && RemovalInv(s)
    ensures Nearer(s, EndPass, p)
  {
    assert p !in s.runner.pass.toRemove;
  }

  lemma {:induction false} OneFurther(list: seq<nat>, at: nat, p: nat)
    requires at < |list|
    ensures p in list[at..] <==> list[at] == p || p in list[at + 1..]
  {
    assert list[at..] == [list[at]] + list[at + 1..];
  }

  lemma {:induction false} ExamineMovesOn(s: State, p: nat)
    requires Enabled(s, Examine) && Wanted(s, p)
    ensures Nearer(s, Examine, p)
  {
    OneFurther(s.runner.pass.list, s.runner.pass.at, p);
  }

  lemma {:induction false} ReadNewStateMovesOn(s: State, p: nat)
    requires Enabled(s, ReadNewState) && Wanted(s, p)
    ensures Nearer(s, ReadNewState, p)
  {
    OneFurther(s.runner.pass.list, s.runner.pass.at, p);
  }

  lemma {:induction false} RunOneKeeps(s: State, next: ProcessState, p: nat)
    requires Enabled(s, RunOne(next)) && Wanted(s, p) && !AboutToRunIt(s, p)
    ensures Nearer(s, RunOne(next), p)
  {
    OneFurther(s.runner.pass.list, s.runner.pass.at, p);
  }

  lemma {:induction false} DoneMeansStopped(es: seq<Event>)
    requires Legal(es)
    ensures Run(es).runner.Done? ==> !Run(es).sh.working
  {
    if es != [] {
      DoneMeansStopped(es[..|es| - 1]);
    }
  }

  lemma {:induction false} OneMoreEvent(es: seq<Event>, e: Event)
    requires Legal(es) && Enabled(Run(es), e)
    ensures Legal(es + [e]) && Run(es + [e]) == Step(Run(es), e)
  {
    assert (es + [e])[..|es|] == es;
  }

  /** wakeUpScheduler, undisturbed. */
  lemma {:induction false} WakesUp(es: seq<Event>, t: nat)
    requires Legal(es) && t in Run(es).clients && Run(es).clients[t].Waking?
    ensures Legal(es + [Wake(t), Notify(t)])
    ensures var s := Run(es + [Wake(t), Notify(t)]);
      && s.sh == Run(es).sh.(wake := true)
      && s.runner == (if Run(es).runner.Sleeping? then Parking else Run(es).runner)
  {
    OneMoreEvent(es, Wake(t));
    OneMoreEvent(es + [Wake(t)], Notify(t));
    assert es + [Wake(t)] + [Notify(t)] == es + [Wake(t), Notify(t)];
  }

  /** From here the runner's own steps lead to a run of `p`. */
  ghost predicate LeadsToRun(es: seq<Event>, all: seq<Event>, p: nat, outcome: nat -> ProcessState) {
    && Legal(all) && RunnerOnly(es, all, outcome)
    && Enabled(Run(all), RunOne(outcome(p))) && IsCurrent(Run(all).runner, p)
  }

  lemma {:induction false} WakingLeadsToRun(es: seq<Event>, t: nat, p: nat, outcome: nat -> ProcessState)
    returns (all: seq<Event>)
    requires Legal(es) && t in Run(es).clients && Run(es).clients[t].Waking?
    requires Run(es).sh.working && p in Run(es).sh.ring && p < |Run(es).sh.processes|
    requires Run(es).sh.processes[p].state == Running
    ensures LeadsToRun(es + [Wake(t), Notify(t)], all, p, outcome)
  {
    DoneMeansStopped(es);
    WakesUp(es, t);
    var called := es + [Wake(t), Notify(t)];
    all := ComesToRun(called, called, p, outcome);
    InvHolds(all);
    AtKnownProcess(Run(all));
  }

  /** A suspended process of the ring that is resumed comes to be run: from any reachable state, the undisturbed
      resume and then the runner's own steps lead to it, unless the executor has been stopped. */
  lemma {:induction false} ResumedIsRun(es: seq<Event>, t: nat, p: nat, outcome: nat -> ProcessState)
    returns (all: seq<Event>)
    requires Legal(es) && Idle(Run(es), t) && Run(es).sh.working && p in Run(es).sh.ring && p < |Run(es).sh.processes|
    requires Run(es).sh.processes[p].state == Suspended
    ensures LeadsToRun(es + [Resume(t, p)] + [Wake(t), Notify(t)], all, p, outcome)
  {
    OneMoreEvent(es, Resume(t, p));
    all := WakingLeadsToRun(es + [Resume(t, p)], t, p, outcome);
  }

  /** And so does one that is told to stop, with its work flag cleared when it is run, and the runner expecting it to
      finish. */
  lemma {:induction false} TerminatedIsRun(es: seq<Event>, t: nat, p: nat, outcome: nat -> ProcessState)
    returns (all: seq<Event>)
    requires Legal(es) && Idle(Run(es), t) && Run(es).sh.working && p in Run(es).sh.ring && p < |Run(es).sh.processes|
    requires Run(es).sh.processes[p].state == Suspended
    ensures LeadsToRun(es + [Terminate(t, p)] + [SetTerminated(t)] + [Wake(t), Notify(t)], all, p, outcome)
    ensures p < |Run(all).sh.processes| && !Run(all).sh.processes[p].work && Run(all).runner.toBeStopped
  {
    ToldAndWaking(es, t, p);
    all := ToldLeadsToRun(es + [Terminate(t, p)] + [SetTerminated(t)], t, p, outcome);
  }

  lemma {:induction false} ToldLeadsToRun(es: seq<Event>, t: nat, p: nat, outcome: nat -> ProcessState)
    returns (all: seq<Event>)
    requires Legal(es) && t in Run(es).clients && Run(es).clients[t].Waking?
    requires Run(es).sh.working && p in Run(es).sh.ring && IsTold(Run(es), p)
    requires Run(es).sh.processes[p].state == Running
    ensures LeadsToRun(es + [Wake(t), Notify(t)], all, p, outcome) && IsTold(Run(all), p)
  {
    WakesUp(es, t);
    all := WakingLeadsToRun(es, t, p, outcome);
    StaysTold(es + [Wake(t), Notify(t)], all, p, outcome);
  }

  lemma {:induction false} ToldAndWaking(es: seq<Event>, t: nat, p: nat)
    requires Legal(es) && Idle(Run(es), t) && p < |Run(es).sh.processes|
    requires Run(es).sh.processes[p].state == Suspended
    ensures var seen := es + [Terminate(t, p)] + [SetTerminated(t)];
      && Legal(seen) && t in Run(seen).clients && Run(seen).clients[t].Waking?
      && Run(seen).sh.working == Run(es).sh.working && Run(seen).sh.ring == Run(es).sh.ring
      && IsTold(Run(seen), p) && Run(seen).sh.processes[p].state == Running
  {
    InvHolds(es);
    OneMoreEvent(es, Terminate(t, p));
    OneMoreEvent(es + [Terminate(t, p)], SetTerminated(t));
  }

  /** The runner's steps leave the work flags alone. */
  lemma {:induction false} StaysTold(es: seq<Event>, all: seq<Event>, p: nat, outcome: nat -> ProcessState)
    requires Legal(all) && RunnerOnly(es, all, outcome)
    requires Legal(es) && IsTold(Run(es), p)
    ensures IsTold(Run(all), p)
  {
    if es != all {
      StaysTold(es, all[..|all| - 1], p, outcome);
      OwnStepKeepsTold(Run(all[..|all| - 1]), all[|all| - 1], p, outcome);
    }
  }

  ghost predicate IsTold(s: State, p: nat) {
    && p < |s.sh.processes| && !s.sh.processes[p].work
    && (AboutToRunIt(s, p) ==> s.runner.toBeStopped)
  }

  lemma {:induction false} OwnStepKeepsTold(s: State, e: Event, p: nat, outcome: nat -> ProcessState)
    requires Enabled(s, e) && RunnersOwn(s, e, outcome) && IsTold(s, p)
    ensures IsTold(Step(s, e), p)
  {
  }

  /** A new process comes to be run. */
  lemma {:induction false} AddedIsRun(es: seq<Event>, t: nat, outcome: nat -> ProcessState) returns (all: seq<Event>)
    requires Legal(es) && Idle(Run(es), t) && Run(es).sh.working
    ensures LeadsToRun(es + [Make(t)] + [PushNew(t)] + [Wake(t), Notify(t)], all, |Run(es).sh.processes|, outcome)
  {
    var made, p := es + [Make(t)], |Run(es).sh.processes|;
    OneMoreEvent(es, Make(t));
    OneMoreEvent(made, PushNew(t));
    var pushed := made + [PushNew(t)];
    assert Run(pushed).sh.ring == Run(es).sh.ring + [p];
    all := WakingLeadsToRun(pushed, t, p, outcome);
  }

  /** The runner comes out of its loop after a stop. */
  lemma {:induction false} StoppedComesOut(es: seq<Event>, t: nat, outcome: nat -> ProcessState)
    returns (all: seq<Event>)
    requires Legal(es) && Idle(Run(es), t)
    ensures Legal(all) && RunnerOnly(es + [Stop(t)] + [Wake(t), Notify(t)], all, outcome) && Run(all).runner.Done?
  {
    OneMoreEvent(es, Stop(t));
    WakesUp(es + [Stop(t)], t);
    var called := es + [Stop(t)] + [Wake(t), Notify(t)];
    all := ComesOut(called, called, outcome);
  }

  lemma {:induction false} ComesOut(es: seq<Event>, all: seq<Event>, outcome: nat -> ProcessState)
    returns (more: seq<Event>)
    requires Legal(all) && RunnerOnly(es, all, outcome) && |es| <= |all|
    requires !Run(all).sh.working && !Run(all).runner.Sleeping?
    ensures Legal(more) && RunnerOnly(es, more, outcome) && Run(more).runner.Done?
    decreases Stage(Run(all).runner, Run(all).runner.Done?), Left(Run(all).runner)
  {
    var s := Run(all);
    if s.runner.Done? {
      more := all;
    } else {
      InvHolds(all);
      if InPass(s.runner) && !Enabled(s, EndPass) {
        AtKnownProcess(s);
      }
      var e := NextOwn(s, outcome);
      OneMoreOwn(es, all, e, outcome);
      OutStep(s, e, outcome);
      more := ComesOut(es, all + [e], outcome);
    }
  }

  lemma {:induction false} OutStep(s: State, e: Event, outcome: nat -> ProcessState)
    requires !s.sh.working && !s.runner.Sleeping? && !s.runner.Done? && Enabled(s, e) && RunnersOwn(s, e, outcome)
    ensures !Step(s, e).sh.working && !Step(s, e).runner.Sleeping?
    ensures var before, after := Stage(s.runner, false), Stage(Step(s, e).runner, Step(s, e).runner.Done?);
      after < before || (after == before && Left(Step(s, e).runner) < Left(s.runner))
  {
  }

  // ----- the way to sleep -----

  /** The process just run is still running. */
  predicate RunsOn(s: State) {
    && s.runner.HasRun? && AtProcess(s, s.runner.pass)
    && s.sh.processes[s.runner.pass.list[s.runner.pass.at]].state == Running
  }

  function Restlessness(s: State): nat {
    if s.runner.Sleeping? then 0
    else if s.runner.Parking? then 1
    else if s.runner.LoopHead? then 3
    else if InPass(s.runner) && (s.runner.pass.hasRunning || RunsOn(s)) then 4
    else 2
  }

  /** No coroutine wants to go on. */
  ghost predicate AllRest(outcome: nat -> ProcessState) {
    forall p :: outcome(p) != Running
  }

  /** A step that brings the runner nearer to its sleep. */
  ghost predicate Calmer(s: State, r: State) {
    && r.sh.working && !r.runner.Done? && WakeCount(r) <= WakeCount(s)
    && (WakeCount(r) < WakeCount(s) || Restlessness(r) < Restlessness(s)
        || (Restlessness(r) == Restlessness(s) && Left(r.runner) < Left(s.runner)))
  }

  function WakeCount(s: State): nat {
    if s.sh.wake then 1 else 0
  }

  lemma {:induction false} RestStep(s: State, e: Event, outcome: nat -> ProcessState)
    requires s.sh.working && !s.runner.Sleeping? && !s.runner.Done? && Enabled(s, e) && RunnersOwn(s, e, outcome)
    requires AllRest(outcome)
    ensures Calmer(s, Step(s, e))
  {
  }

  /** A runner whose coroutines all want to rest goes to sleep by its own steps: it does not go round for ever. */
  lemma {:induction false} GoesToSleep(es: seq<Event>, all: seq<Event>, outcome: nat -> ProcessState)
    returns (more: seq<Event>)
    requires Legal(all) && RunnerOnly(es, all, outcome) && |es| <= |all|
    requires Run(all).sh.working && AllRest(outcome)
    ensures Legal(more) && RunnerOnly(es, more, outcome) && Run(more).runner.Sleeping?
    decreases WakeCount(Run(all)), Restlessness(Run(all)), Left(Run(all).runner)
  {
    if Run(all).runner.Sleeping? {
      more := all;
    } else {
      var next := RestOnce(es, all, outcome);
      more := GoesToSleep(es, next, outcome);
    }
  }

  lemma {:induction false} RestOnce(es: seq<Event>, all: seq<Event>, outcome: nat -> ProcessState)
    returns (next: seq<Event>)
    requires Legal(all) && RunnerOnly(es, all, outcome) && |es| <= |all|
    requires Run(all).sh.working && AllRest(outcome) && !Run(all).runner.Sleeping?
    ensures Legal(next) && RunnerOnly(es, next, outcome) && |es| <= |next| && Calmer(Run(all), Run(next))
  {
    var s := Run(all);
    DoneMeansStopped(all);
    InvHolds(all);
    if InPass(s.runner) && !Enabled(s, EndPass) {
      AtKnownProcess(s);
    }
    var e := NextOwn(s, outcome);
    OneMoreOwn(es, all, e, outcome);
    RestStep(s, e, outcome);
    next := all + [e];
  }
}
