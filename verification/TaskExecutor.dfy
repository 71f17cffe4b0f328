/** The ring of processes and its runner: every critical section is one atomic step, and runs are all
    interleavings of client threads with the runner. */
module TaskExecutor {
  import opened Wrappers

  datatype ProcessState = Suspended | Running | Finished

  /** A process with its state and the flag cleared by terminate(). */
  datatype Process = Process(state: ProcessState, work: bool)

  // ----- shared state and critical sections -----

  /** What threads share: all processes ever made, the ring of those to be run, and two flags. */
  datatype Shared = Shared(processes: seq<Process>, ring: seq<nat>, working: bool, wake: bool)

  /** The locked part of resume() and terminate(). */
  function Resumed(sh: Shared, p: nat): Shared
    requires p < |sh.processes|
  {
    if sh.processes[p].state == Finished then sh
    else sh.(processes := sh.processes[p := sh.processes[p].(state := Running)])
  }

  function WorkCleared(sh: Shared, p: nat): Shared
    requires p < |sh.processes|
  {
    sh.(processes := sh.processes[p := sh.processes[p].(work := false)])
  }

  /** run(): the coroutine is resumed and says what its next state is. */
  function RanTo(sh: Shared, p: nat, next: ProcessState): Shared
    requires p < |sh.processes|
  {
    sh.(processes := sh.processes[p := sh.processes[p].(state := next)])
  }

  function Keep(ring: seq<nat>, gone: set<nat>): (r: seq<nat>)
    ensures forall p :: p in r <==> p in ring && p !in gone
  {
    if ring == [] then []
    else
      assert ring == ring[..|ring| - 1] + [ring[|ring| - 1]];
      Keep(ring[..|ring| - 1], gone) + (if ring[|ring| - 1] in gone then [] else [ring[|ring| - 1]])
  }

  // ----- what undisturbed calls do -----

  function AfterAdd(sh: Shared): Shared {
    sh.(processes := sh.processes + [Process(Running, true)], ring := sh.ring + [|sh.processes|], wake := true)
  }

  function AfterResume(sh: Shared, p: nat): Shared
    requires p < |sh.processes|
  {
    Resumed(sh, p).(wake := true)
  }

  function AfterTerminate(sh: Shared, p: nat): Shared
    requires p < |sh.processes|
  {
    AfterResume(WorkCleared(sh, p), p)
  }

  function AfterStop(sh: Shared): Shared {
    if sh.working then sh.(working := false, wake := true) else sh
  }

  function AfterPass(was: seq<Process>, ring: seq<nat>, outcome: nat -> ProcessState, p: nat): Process
    requires p < |was|
  {
    if p in ring && was[p].state == Running then was[p].(state := outcome(p)) else was[p]
  }

  /** The running processes of a list, in its order. */
  function RunningOf(processes: seq<Process>, list: seq<nat>): seq<nat>
    requires forall p | p in list :: p < |processes|
  {
    if list == [] then []
    else
      var front, p := list[..|list| - 1], list[|list| - 1];
      assert p in list && forall q | q in front :: q in list;
      RunningOf(processes, front) + (if processes[p].state == Running then [p] else [])
  }

  datatype PassResult = PassResult(processes: seq<Process>, hasRunning: bool, toRemove: set<nat>, runs: seq<nat>)

  /** The turns of a pass, one after the other. */
  function TurnsTaken(was: seq<Process>, runs: seq<nat>, list: seq<nat>, outcome: nat -> ProcessState): (r: PassResult)
    ensures |r.processes| == |was|
  {
    if list == [] then PassResult(was, false, {}, runs)
    else
      var r, p := TurnsTaken(was, runs, list[..|list| - 1], outcome), list[|list| - 1];
      if p >= |was| || r.processes[p].state != Running then r
      else PassResult(
        r.processes[p := r.processes[p].(state := outcome(p))], r.hasRunning || outcome(p) == Running,
        if outcome(p) == Finished then r.toRemove + {p} else r.toRemove, r.runs + [p])
  }

  /** What a pass leaves, given its turns. */
  function Passed(sh: Shared, turns: PassResult): Shared {
    sh.(processes := turns.processes, ring := Keep(sh.ring, turns.toRemove))
  }

  /** With no process listed twice, the turns do not get into each other's way. */
  lemma {:induction false} TurnsTakenOnce(was: seq<Process>, runs: seq<nat>, list: seq<nat>,
      outcome: nat -> ProcessState)
    requires NoRepeats(list) && forall p | p in list :: p < |was|
    ensures var r := TurnsTaken(was, runs, list, outcome);
      && r.runs == runs + RunningOf(was, list)
      && (forall p | 0 <= p < |was| :: r.processes[p] == AfterPass(was, list, outcome, p))
      && (forall p :: p in r.toRemove <==> p in list && was[p].state == Running && outcome(p) == Finished)
      && (r.hasRunning <==> exists p :: p in list && was[p].state == Running && outcome(p) == Running)
  {
    if list != [] {
      var front, p := list[..|list| - 1], list[|list| - 1];
      assert p in list && p !in front && forall q | q in front :: q in list;
      TurnsTakenOnce(was, runs, front, outcome);
      var before := TurnsTaken(was, runs, front, outcome);
      assert before.processes[p] == was[p];
      assert forall q :: q in list <==> q in front || q == p;
    }
  }

  lemma {:induction false} PassLeaves(sh: Shared, runs: seq<nat>, outcome: nat -> ProcessState)
    requires NoRepeats(sh.ring) && NoneFinished(sh)
    ensures
      var r := TurnsTaken(sh.processes, runs, sh.ring, outcome);
      var after := Passed(sh, r);
      && r.runs == runs + RunningOf(sh.processes, sh.ring)
      && (forall p | 0 <= p < |sh.processes| :: after.processes[p] == AfterPass(sh.processes, sh.ring, outcome, p))
      && (forall p :: p in after.ring <==> p in sh.ring && after.processes[p].state != Finished)
      && NoRepeats(after.ring)
      && (r.hasRunning <==> exists p :: p in after.ring && after.processes[p].state == Running)
  {
    TurnsTakenOnce(sh.processes, runs, sh.ring, outcome);
    KeptOnce(sh.ring, TurnsTaken(sh.processes, runs, sh.ring, outcome).toRemove);
  }

  predicate OthersStay(was: seq<Process>, now: seq<Process>, p: nat) {
    |now| == |was| && forall q | 0 <= q < |was| && q != p :: now[q] == was[q]
  }

  class TaskExecutor {
    var processes: seq<Process>
    var ring: seq<nat>
    var working: bool
    var processesWakeRequested: bool
    /** The processes that have been run, in order. */
    ghost var runs: seq<nat>

    function View(): Shared
      reads this
    {
      Shared(processes, ring, working, processesWakeRequested)
    }

    constructor ()
      ensures View() == Shared([], [], true, false)
    {
      processes, ring, working, processesWakeRequested := [], [], true, false;
    }

    method Add() returns (p: nat)
      modifies this
      ensures p == |old(processes)| && View() == AfterAdd(old(View())) && runs == old(runs)
      ensures processes == old(processes) + [Process(Running, true)] && ring == old(ring) + [p]
      ensures processesWakeRequested && working == old(working)
    {
      p := |processes|;
      processes := processes + [Process(Running, true)];
      ring := ring + [p];
      WakeUpScheduler();
    }

    method Resume(p: nat)
      requires p < |processes|
      modifies this
      ensures View() == AfterResume(old(View()), p) && runs == old(runs)
      ensures processes[p].state == (if old(processes[p].state) == Finished then Finished else Running)
      ensures processes[p].work == old(processes[p].work)
      ensures OthersStay(old(processes), processes, p) && ring == old(ring) && working == old(working)
      ensures processesWakeRequested
    {
      if processes[p].state != Finished {
        processes := processes[p := processes[p].(state := Running)];
      }
      WakeUpScheduler();
    }

    method Terminate(p: nat)
      requires p < |processes|
      modifies this
      ensures View() == AfterTerminate(old(View()), p) && runs == old(runs)
      ensures processes[p].state == (if old(processes[p].state) == Finished then Finished else Running)
      ensures !processes[p].work
      ensures OthersStay(old(processes), processes, p) && ring == old(ring) && working == old(working)
      ensures processesWakeRequested
    {
      processes := processes[p := processes[p].(work := false)];
      if processes[p].state != Finished {
        processes := processes[p := processes[p].(state := Running)];
      }
      WakeUpScheduler();
    }

    method Stop()
      modifies this
      ensures View() == AfterStop(old(View())) && runs == old(runs)
      ensures !working && (old(working) ==> processesWakeRequested)
      ensures processes == old(processes) && ring == old(ring)
    {
      if working {
        working := false;
        WakeUpScheduler();
      }
    }

    method WakeUpScheduler()
      modifies this`processesWakeRequested
      ensures processesWakeRequested
    {
      processesWakeRequested := true;
    }

    method RunProcess(p: nat, next: ProcessState)
      requires p < |processes|
      modifies this`processes, this`runs
      ensures View() == RanTo(old(View()), p, next) && runs == old(runs) + [p]
    {
      processes := processes[p := processes[p].(state := next)];
      runs := runs + [p];
    }

    method EraseFromRing(toRemove: set<nat>)
      modifies this`ring
      ensures View() == old(View()).(ring := Keep(old(ring), toRemove))
    {
      var kept := [];
      for i := 0 to |ring|
        invariant kept == Keep(ring[..i], toRemove)
      {
        assert ring[..i + 1][..i] == ring[..i];
        if ring[i] !in toRemove {
          kept := kept + [ring[i]];
        }
      }
      assert ring[..|ring|] == ring;
      ring := kept;
    }

    /** One pass of the runner with no other thread in between; `outcome` is what each coroutine says.
        Every running process of the ring is run once, in ring order, and those that finish leave the ring. */
    method RunPass(outcome: nat -> ProcessState) returns (hasRunning: bool)
      requires NoRepeats(ring) && NoneFinished(View())
      modifies this`processes, this`ring, this`runs
      ensures var r := TurnsTaken(old(processes), old(runs), old(ring), outcome);
        View() == Passed(old(View()), r) && runs == r.runs && hasRunning == r.hasRunning
      ensures runs == old(runs) + RunningOf(old(processes), old(ring))
      ensures |processes| == |old(processes)|
      ensures forall p | 0 <= p < |processes| :: processes[p] == AfterPass(old(processes), old(ring), outcome, p)
      ensures forall p :: p in ring <==> p in old(ring) && processes[p].state != Finished
      ensures NoRepeats(ring)
      ensures hasRunning <==> exists p :: p in ring && processes[p].state == Running
    {
      var list := ring;
      var toRemove: set<nat>;
      PassLeaves(View(), runs, outcome);
      hasRunning, toRemove := RunListed(list, outcome);
      EraseFromRing(toRemove);
    }

    /** The loop over the snapshot. */
    method RunListed(list: seq<nat>, outcome: nat -> ProcessState) returns (hasRunning: bool, toRemove: set<nat>)
      requires forall p | p in list :: p < |processes|
      modifies this`processes, this`runs
      ensures PassResult(processes, hasRunning, toRemove, runs) == TurnsTaken(old(processes), old(runs), list, outcome)
    {
      toRemove := {};
      hasRunning := false;
      for i := 0 to |list|
        invariant PassResult(processes, hasRunning, toRemove, runs) ==
          TurnsTaken(old(processes), old(runs), list[..i], outcome)
      {
        var p := list[i];
        assert list[..i + 1][..i] == list[..i];
        assert p in list;
        if processes[p].state == Running {
          RunProcess(p, outcome(p));
          if processes[p].state == Running {
            hasRunning := true;
          } else if processes[p].state == Finished {
            toRemove := toRemove + {p};
          }
        }
      }
      assert list[..|list|] == list;
    }

    /** The predicate of the wait; when it holds the wait is over and the flag is cleared. */
    method TryToLeaveWait() returns (awake: bool)
      modifies this
      ensures awake == (!old(working) || old(processesWakeRequested))
      ensures View() == if awake then old(View()).(wake := false) else old(View())
    {
      awake := !working || processesWakeRequested;
      if awake {
        processesWakeRequested := false;
      }
    }
  }

  // ----- threads -----

  /** Where a client thread is within add, terminate, resume or stop. */
  datatype Client =
    | Adding(added: nat)             // the process is made but not in the ring
    | Terminating(terminated: nat)   // the work flag is cleared, the state not yet set
    | Waking(touched: Option<nat>)   // the ring, a state or the working flag is set; wakeUpScheduler not yet run
    | Notifying                      // the wake flag is set, the condition variable not yet notified

  /** Where the runner is. During a pass: the snapshot of the ring, the position in it, whether some
      process stays running, and the processes to be removed. */
  datatype Runner =
    | LoopHead
    | Pass(pass: PassState)
    | SeenRunning(pass: PassState)
    | AboutToRun(pass: PassState, toBeStopped: bool)
    | HasRun(pass: PassState, toBeStopped: bool, outcome: ProcessState)
    | Parking
    | Sleeping
    | Done

  datatype PassState = PassState(list: seq<nat>, at: nat, hasRunning: bool, toRemove: set<nat>)

  datatype State = State(sh: Shared, clients: map<nat, Client>, runner: Runner)

  const INITIAL := State(Shared([], [], true, false), map[], LoopHead)

  datatype Event =
    // client threads
    | Make(thread: nat)
    | PushNew(thread: nat)
    | Terminate(thread: nat, process: nat)
    | SetTerminated(thread: nat)
    | Resume(thread: nat, process: nat)
    | Stop(thread: nat)
    | Wake(thread: nat)
    | Notify(thread: nat)
    // the runner
    | Snapshot
    | Examine
    | ReadWork
    | RunOne(next: ProcessState)
    | ReadNewState
    | EndPass
    | CheckWait
    | SpuriousWakeUp

  predicate Idle(s: State, t: nat) {
    t !in s.clients
  }

  predicate InPass(r: Runner) {
    r.Pass? || r.SeenRunning? || r.AboutToRun? || r.HasRun?
  }

  predicate AtProcess(s: State, pass: PassState) {
    pass.at < |pass.list| && pass.list[pass.at] < |s.sh.processes|
  }

  predicate Enabled(s: State, e: Event) {
    match e
    case Make(t) => Idle(s, t)
    case PushNew(t) => t in s.clients && s.clients[t].Adding?
    case Terminate(t, p) => Idle(s, t) && p < |s.sh.processes|
    case SetTerminated(t) => t in s.clients && s.clients[t].Terminating? && s.clients[t].terminated < |s.sh.processes|
    case Resume(t, p) => Idle(s, t) && p < |s.sh.processes|
    case Stop(t) => Idle(s, t)
    case Wake(t) => t in s.clients && s.clients[t].Waking?
    case Notify(t) => t in s.clients && s.clients[t].Notifying?
    case Snapshot => s.runner.LoopHead?
    case Examine => s.runner.Pass? && AtProcess(s, s.runner.pass)
    case ReadWork => s.runner.SeenRunning? && AtProcess(s, s.runner.pass)
    case RunOne(_) => s.runner.AboutToRun? && AtProcess(s, s.runner.pass)
    case ReadNewState => s.runner.HasRun? && AtProcess(s, s.runner.pass)
    case EndPass => s.runner.Pass? && s.runner.pass.at == |s.runner.pass.list|
    case CheckWait => s.runner.Parking?
    case SpuriousWakeUp => s.runner.Sleeping?
  }

  function Step(s: State, e: Event): State
    requires Enabled(s, e)
  {
    match e
    case Make(t) =>
      s.(sh := s.sh.(processes := s.sh.processes + [Process(Running, true)]),
        clients := s.clients[t := Adding(|s.sh.processes|)])
    case PushNew(t) =>
      var p := s.clients[t].added;
      s.(sh := s.sh.(ring := s.sh.ring + [p]), clients := s.clients[t := Waking(Some(p))])
    case Terminate(t, p) => s.(sh := WorkCleared(s.sh, p), clients := s.clients[t := Terminating(p)])
    case SetTerminated(t) =>
      var p := s.clients[t].terminated;
      s.(sh := Resumed(s.sh, p), clients := s.clients[t := Waking(Some(p))])
    case Resume(t, p) => s.(sh := Resumed(s.sh, p), clients := s.clients[t := Waking(Some(p))])
    case Stop(t) => s.(sh := s.sh.(working := false), clients := s.clients[t := Waking(None)])
    case Wake(t) => s.(sh := s.sh.(wake := true), clients := s.clients[t := Notifying])
    case Notify(t) => s.(clients := s.clients - {t}, runner := if s.runner.Sleeping? then Parking else s.runner)
    case Snapshot => s.(runner := if s.sh.working then Pass(PassState(s.sh.ring, 0, false, {})) else Done)
    case Examine =>
      var pass := s.runner.pass;
      if s.sh.processes[pass.list[pass.at]].state == Running then s.(runner := SeenRunning(pass))
      else s.(runner := Pass(pass.(at := pass.at + 1)))
    case ReadWork =>
      var pass := s.runner.pass;
      s.(runner := AboutToRun(pass, !s.sh.processes[pass.list[pass.at]].work))
    case RunOne(next) =>
      var pass := s.runner.pass;
      s.(sh := RanTo(s.sh, pass.list[pass.at], next), runner := HasRun(pass, s.runner.toBeStopped, next))
    case ReadNewState =>
      var pass := s.runner.pass;
      var p := pass.list[pass.at];
      var newState := s.sh.processes[p].state;
      s.(runner := Pass(pass.(
        at := pass.at + 1,
        hasRunning := pass.hasRunning || newState == Running,
        toRemove := if newState == Finished then pass.toRemove + {p} else pass.toRemove)))
    case EndPass =>
      var pass := s.runner.pass;
      s.(sh := s.sh.(ring := Keep(s.sh.ring, pass.toRemove)), runner := if pass.hasRunning then LoopHead else Parking)
    case CheckWait =>
      if !s.sh.working || s.sh.wake then s.(sh := s.sh.(wake := false), runner := LoopHead) else s.(runner := Sleeping)
    case SpuriousWakeUp => s.(runner := Parking)
  }

  predicate Legal(es: seq<Event>)
    decreases |es|, 0
  {
    es == [] || (Legal(es[..|es| - 1]) && Enabled(Run(es[..|es| - 1]), es[|es| - 1]))
  }

  function Run(es: seq<Event>): State
    requires Legal(es)
    decreases |es|, 1
  {
    if es == [] then INITIAL else Step(Run(es[..|es| - 1]), es[|es| - 1])
  }

  // ----- the invariant -----

  ghost predicate NoRepeats(s: seq<nat>) {
    forall i, j | 0 <= i < j < |s| :: s[i] != s[j]
  }

  /** The ring holds known processes, each once. */
  ghost predicate RingInv(s: State) {
    NoRepeats(s.sh.ring) && forall p | p in s.sh.ring :: p < |s.sh.processes|
  }

  /** A process being added is not in the ring yet and has not finished. */
  ghost predicate AddedInv(s: State) {
    forall t | t in s.clients && s.clients[t].Adding? ::
      && s.clients[t].added < |s.sh.processes| && s.clients[t].added !in s.sh.ring
      && s.sh.processes[s.clients[t].added].state != Finished
  }

  /** It is being added by one thread only. */
  ghost predicate AloneInv(s: State) {
    forall t, u | t in s.clients && u in s.clients && t != u && s.clients[t].Adding? :: s.clients[u] != s.clients[t]
  }

  ghost predicate TerminatingInv(s: State) {
    forall t | t in s.clients && s.clients[t].Terminating? :: s.clients[t].terminated < |s.sh.processes|
  }

  ghost predicate AddingInv(s: State) {
    AddedInv(s) && AloneInv(s) && TerminatingInv(s)
  }

  /** The snapshot is the front of the ring, for only the runner removes from it. */
  ghost predicate PassInv(s: State) {
    InPass(s.runner) ==> (
      var pass := s.runner.pass;
      && pass.at <= |pass.list| <= |s.sh.ring| && s.sh.ring[..|pass.list|] == pass.list
      && (!s.runner.Pass? ==> pass.at < |pass.list|))
  }

  /** The process the runner is busy with. */
  ghost predicate IsCurrent(r: Runner, p: nat) {
    InPass(r) && r.pass.at < |r.pass.list| && r.pass.list[r.pass.at] == p
  }

  /** A finished process in the ring is one the current pass will remove, or has just run. */
  ghost predicate FinishedInv(s: State) {
    forall p | p in s.sh.ring && p < |s.sh.processes| && s.sh.processes[p].state == Finished ::
      InPass(s.runner) && (p in s.runner.pass.toRemove || (s.runner.HasRun? && IsCurrent(s.runner, p)))
  }

  /** What a pass will remove has finished and lies behind it. */
  ghost predicate RemovalInv(s: State) {
    InPass(s.runner) ==> forall p | p in s.runner.pass.toRemove ::
      p < |s.sh.processes| && s.sh.processes[p].state == Finished && s.runner.pass.at <= |s.runner.pass.list| &&
      p in s.runner.pass.list[..s.runner.pass.at]
  }

  /** A process about to be run is running; one that has run is finished exactly if its coroutine said so. */
  ghost predicate CurrentInv(s: State) {
    && (s.runner.SeenRunning? || s.runner.AboutToRun? ==>
         AtProcess(s, s.runner.pass) && s.sh.processes[s.runner.pass.list[s.runner.pass.at]].state == Running)
    && (s.runner.HasRun? ==>
         AtProcess(s, s.runner.pass) &&
         (s.sh.processes[s.runner.pass.list[s.runner.pass.at]].state == Finished <==> s.runner.outcome == Finished))
  }

  /** A process that was seen to be told to stop still is: nobody takes that back. */
  ghost predicate WorkInv(s: State) {
    (s.runner.AboutToRun? || s.runner.HasRun?) && s.runner.toBeStopped ==>
      AtProcess(s, s.runner.pass) && !s.sh.processes[s.runner.pass.list[s.runner.pass.at]].work
  }

  /** Some thread has made `p` running, or put it in the ring, and has not yet run wakeUpScheduler. */
  ghost predicate WakePending(s: State, p: nat) {
    exists t :: t in s.clients && s.clients[t] == Waking(Some(p))
  }

  /** The runner will look at `p` again before it can park, or will not park. */
  ghost predicate WillBeSeen(r: Runner, p: nat) {
    || r.LoopHead? || r.Done?
    || (InPass(r) && (r.pass.hasRunning || (r.pass.at <= |r.pass.list| && p in r.pass.list[r.pass.at..])))
  }

  /** No running process of the ring is forgotten. */
  ghost predicate WakeInv(s: State) {
    forall p | p in s.sh.ring && p < |s.sh.processes| && s.sh.processes[p].state == Running ::
      s.sh.wake || WakePending(s, p) || WillBeSeen(s.runner, p)
  }

  /** Some thread is on its way to notifying the runner. */
  ghost predicate NotificationDue(s: State) {
    exists t :: t in s.clients && (s.clients[t].Waking? || s.clients[t].Notifying?)
  }

  /** A sleeping runner that has a reason to wake up is about to be notified. */
  ghost predicate NotifyInv(s: State) {
    s.runner.Sleeping? && (s.sh.wake || !s.sh.working) ==> NotificationDue(s)
  }

  ghost predicate Inv(s: State) {
    RingInv(s) && AddingInv(s) && PassInv(s) && FinishedInv(s) && RemovalInv(s) && CurrentInv(s) && WorkInv(s)
    && WakeInv(s) && NotifyInv(s)
  }

  // ----- each step keeps it -----

  /** What is kept of the ring stays in its order: what is kept of a list is what is kept of its parts. */
  lemma {:induction false} KeptInParts(a: seq<nat>, b: seq<nat>, gone: set<nat>)
    ensures Keep(a + b, gone) == Keep(a, gone) + Keep(b, gone)
  {
    if b == [] {
      assert a + b == a;
    } else {
      var front := b[..|b| - 1];
      assert (a + b)[..|a + b| - 1] == a + front;
      KeptInParts(a, front, gone);
    }
  }

  lemma {:induction false} KeptOfOne(p: nat, gone: set<nat>)
    ensures Keep([], gone) == [] && Keep([p], gone) == if p in gone then [] else [p]
  {
    assert [p][..0] == [];
  }

  lemma {:induction false} KeptOnce(ring: seq<nat>, gone: set<nat>)
    requires NoRepeats(ring)
    ensures NoRepeats(Keep(ring, gone))
  {
    if ring != [] {
      var rest := ring[..|ring| - 1];
      KeptOnce(rest, gone);
      assert ring[|ring| - 1] !in rest;
    }
  }

  lemma {:induction false} RingStep(s: State, e: Event)
    requires Enabled(s, e) && RingInv(s) && AddingInv(s)
    ensures RingInv(Step(s, e))
  {
    if e.EndPass? {
      KeptOnce(s.sh.ring, s.runner.pass.toRemove);
    }
  }

  lemma {:induction false} AddedStep(s: State, e: Event)
    requires Enabled(s, e) && RingInv(s) && AddedInv(s) && AloneInv(s) && PassInv(s)
    ensures AddedInv(Step(s, e))
  {
    match e
    case Make(t) => MakeKeepsAdded(s, t);
    case PushNew(t) => PushKeepsAdded(s, t);
    case RunOne(next) => RunKeepsAdded(s, next);
    case _ =>
  }

  lemma {:induction false} MakeKeepsAdded(s: State, t: nat)
    requires Enabled(s, Make(t)) && RingInv(s) && AddedInv(s)
    ensures AddedInv(Step(s, Make(t)))
  {
  }

  lemma {:induction false} PushKeepsAdded(s: State, t: nat)
    requires Enabled(s, PushNew(t)) && AddedInv(s) && AloneInv(s)
    ensures AddedInv(Step(s, PushNew(t)))
  {
  }

  /** The process that is run is in the ring, so nobody is adding it. */
  lemma {:induction false} RunKeepsAdded(s: State, next: ProcessState)
    requires Enabled(s, RunOne(next)) && AddedInv(s) && PassInv(s)
    ensures AddedInv(Step(s, RunOne(next)))
  {
    var p := s.runner.pass.list[s.runner.pass.at];
    assert s.sh.ring[s.runner.pass.at] == p;
  }

  lemma {:induction false} AloneStep(s: State, e: Event)
    requires Enabled(s, e) && AddedInv(s) && AloneInv(s)
    ensures AloneInv(Step(s, e))
  {
  }

  lemma {:induction false} TerminatingStep(s: State, e: Event)
    requires Enabled(s, e) && TerminatingInv(s)
    ensures TerminatingInv(Step(s, e))
  {
  }

  lemma {:induction false} AddingStep(s: State, e: Event)
    requires Enabled(s, e) && RingInv(s) && AddingInv(s) && PassInv(s)
    ensures AddingInv(Step(s, e))
  {
    AddedStep(s, e);
    AloneStep(s, e);
    TerminatingStep(s, e);
  }

  lemma {:induction false} PassStep(s: State, e: Event)
    requires Enabled(s, e) && PassInv(s)
    ensures PassInv(Step(s, e))
  {
    if e.PushNew? && InPass(s.runner) {
      var n := |s.runner.pass.list|;
      assert Step(s, e).sh.ring[..n] == s.sh.ring[..n];
    }
  }

  lemma {:induction false} FinishedStep(s: State, e: Event)
    requires Enabled(s, e) && RingInv(s) && AddingInv(s) && PassInv(s) && FinishedInv(s) && CurrentInv(s)
    ensures FinishedInv(Step(s, e))
  {
  }

  lemma {:induction false} RemovalStep(s: State, e: Event)
    requires Enabled(s, e) && RingInv(s) && PassInv(s) && RemovalInv(s) && CurrentInv(s)
    ensures RemovalInv(Step(s, e))
  {
  }

  lemma {:induction false} CurrentStep(s: State, e: Event)
    requires Enabled(s, e) && RingInv(s) && PassInv(s) && FinishedInv(s) && CurrentInv(s)
    ensures CurrentInv(Step(s, e))
  {
  }

  lemma {:induction false} WorkStep(s: State, e: Event)
    requires Enabled(s, e) && WorkInv(s)
    ensures WorkInv(Step(s, e))
  {
  }

  /** A thread's own steps leave the other threads where they are. */
  lemma {:induction false} PendingStep(s: State, e: Event, p: nat)
    requires Enabled(s, e) && WakePending(s, p)
    ensures WakePending(Step(s, e), p) || Step(s, e).sh.wake
  {
    var t :| t in s.clients && s.clients[t] == Waking(Some(p));
    assert !e.Wake? ==> t in Step(s, e).clients && Step(s, e).clients[t] == s.clients[t];
    assert e.Wake? && e.thread != t ==> t in Step(s, e).clients && Step(s, e).clients[t] == s.clients[t];
  }

  /** A step that turns `p` running, or puts it in the ring, is followed by wakeUpScheduler. */
  lemma {:induction false} NewlyRunning(s: State, e: Event, p: nat)
    requires Enabled(s, e) && RingInv(s) && AddingInv(s) && PassInv(s) && !e.RunOne?
    requires p in Step(s, e).sh.ring && p < |s.sh.processes| && Step(s, e).sh.processes[p].state == Running
    requires p !in s.sh.ring || s.sh.processes[p].state != Running
    ensures WakePending(Step(s, e), p)
  {
    var t := if e.PushNew? || e.SetTerminated? || e.Resume? then e.thread else 0;
    assert t in Step(s, e).clients && Step(s, e).clients[t] == Waking(Some(p));
  }

  /** The runner does not lose sight of a process that stays running. */
  lemma {:induction false} SightStep(s: State, e: Event, p: nat)
    requires Enabled(s, e) && PassInv(s) && p in s.sh.ring && p < |s.sh.processes|
    requires WillBeSeen(s.runner, p) && s.sh.processes[p].state == Running &&
      Step(s, e).sh.processes[p].state == Running
    ensures WillBeSeen(Step(s, e).runner, p)
  {
    if (e.Examine? || e.ReadNewState?) && !s.runner.pass.hasRunning {
      var pass := s.runner.pass;
      var i :| pass.at <= i < |pass.list| && pass.list[i] == p;
      assert i > pass.at ==> pass.list[pass.at + 1..][i - pass.at - 1] == p;
    } else if e.Snapshot? {
      assert s.sh.ring[0..] == s.sh.ring;
    }
  }

  lemma {:induction false} WakeStep(s: State, e: Event)
    requires Enabled(s, e) && RingInv(s) && AddingInv(s) && PassInv(s) && WakeInv(s)
    ensures WakeInv(Step(s, e))
  {
    var after := Step(s, e);
    forall p | p in after.sh.ring && p < |after.sh.processes| && after.sh.processes[p].state == Running
      ensures after.sh.wake || WakePending(after, p) || WillBeSeen(after.runner, p)
    {
      WakeStepFor(s, e, p);
    }
  }

  lemma {:induction false} WakeStepFor(s: State, e: Event, p: nat)
    requires Enabled(s, e) && RingInv(s) && AddingInv(s) && PassInv(s) && WakeInv(s)
    requires p in Step(s, e).sh.ring && p < |Step(s, e).sh.processes| && Step(s, e).sh.processes[p].state == Running
    ensures Step(s, e).sh.wake || WakePending(Step(s, e), p) || WillBeSeen(Step(s, e).runner, p)
  {
    if e.RunOne? {
      RunOneKeepsSight(s, e, p);
    } else if p !in s.sh.ring || s.sh.processes[p].state != Running {
      NewlyRunning(s, e, p);
    } else if WakePending(s, p) {
      PendingStep(s, e, p);
    } else if WillBeSeen(s.runner, p) {
      SightStep(s, e, p);
    } else {
      assert s.sh.wake;
    }
  }

  /** The process that has just run is still to be looked at. */
  lemma {:induction false} RunOneKeepsSight(s: State, e: Event, p: nat)
    requires Enabled(s, e) && e.RunOne? && PassInv(s) && WakeInv(s)
    requires p in s.sh.ring && p < |s.sh.processes| && Step(s, e).sh.processes[p].state == Running
    ensures Step(s, e).sh.wake || WakePending(Step(s, e), p) || WillBeSeen(Step(s, e).runner, p)
  {
    var pass := s.runner.pass;
    if p == pass.list[pass.at] {
      assert pass.list[pass.at..][0] == p;
    } else if WakePending(s, p) {
      PendingStep(s, e, p);
    }
  }

  lemma {:induction false} NotifyStep(s: State, e: Event)
    requires Enabled(s, e) && NotifyInv(s)
    ensures NotifyInv(Step(s, e))
  {
    if NotificationDue(s) {
      var t :| t in s.clients && (s.clients[t].Waking? || s.clients[t].Notifying?);
      var r := Step(s, e);
      assert r.runner.Sleeping? ==> t in r.clients && (r.clients[t].Waking? || r.clients[t].Notifying?);
    } else if e.Stop? {
      assert e.thread in Step(s, e).clients && Step(s, e).clients[e.thread].Waking?;
    }
  }

  lemma {:induction false} InvHolds(es: seq<Event>)
    requires Legal(es)
    ensures Inv(Run(es))
  {
    if es != [] {
      var s, e := Run(es[..|es| - 1]), es[|es| - 1];
      InvHolds(es[..|es| - 1]);
      RingStep(s, e);
      AddingStep(s, e);
      PassStep(s, e);
      FinishedStep(s, e);
      RemovalStep(s, e);
      CurrentStep(s, e);
      WorkStep(s, e);
      WakeStep(s, e);
      NotifyStep(s, e);
    }
  }

  // ----- what every run keeps -----

  /** No wake-up is lost: whenever the runner is parked with the wake flag clear, a running process of
      the ring is one whose add, resume or terminate has not yet run wakeUpScheduler. And a runner that
      sleeps although it should not is about to be notified. */
  lemma {:induction false} NoWakeUpIsLost(es: seq<Event>)
    requires Legal(es)
    ensures Run(es).runner.Parking? || Run(es).runner.Sleeping? ==>
        !Run(es).sh.wake ==> forall p | p in Run(es).sh.ring && p < |Run(es).sh.processes| ::
          Run(es).sh.processes[p].state == Running ==> WakePending(Run(es), p)
    ensures Run(es).runner.Sleeping? && (Run(es).sh.wake || !Run(es).sh.working) ==> NotificationDue(Run(es))
  {
    InvHolds(es);
  }

  /** With no thread inside add, resume, terminate or stop, a sleeping runner is right to sleep: it is
      not asked to stop and every process of the ring is suspended. */
  lemma {:induction false} QuietSleep(es: seq<Event>)
    requires Legal(es) && Run(es).clients == map[] && Run(es).runner.Sleeping?
    ensures Run(es).sh.working && !Run(es).sh.wake
    ensures forall p | p in Run(es).sh.ring :: p < |Run(es).sh.processes| && Run(es).sh.processes[p].state == Suspended
  {
    InvHolds(es);
  }

  /** Finished is absorbing: no step of any thread takes a process out of that state. */
  lemma {:induction false} FinishedIsAbsorbing(es: seq<Event>, e: Event, p: nat)
    requires Legal(es) && Enabled(Run(es), e)
    requires p < |Run(es).sh.processes| && Run(es).sh.processes[p].state == Finished
    ensures p < |Step(Run(es), e).sh.processes| && Step(Run(es), e).sh.processes[p].state == Finished
  {
    InvHolds(es);
  }

  /** Over any continuation of a run. */
  lemma {:induction false} FinishedForGood(es: seq<Event>, more: seq<Event>, p: nat)
    requires Legal(es + more) && Legal(es)
    requires p < |Run(es).sh.processes| && Run(es).sh.processes[p].state == Finished
    ensures p < |Run(es + more).sh.processes| && Run(es + more).sh.processes[p].state == Finished
  {
    if more == [] {
      assert es + more == es;
    } else {
      var front := more[..|more| - 1];
      assert (es + more)[..|es + more| - 1] == es + front;
      FinishedForGood(es, front, p);
      FinishedIsAbsorbing(es + front, more[|more| - 1], p);
    }
  }

  ghost predicate NoneFinished(sh: Shared) {
    forall p | p in sh.ring :: p < |sh.processes| && sh.processes[p].state != Finished
  }

  /** A finished process is never run again, and is out of the ring before the next pass starts; so a
      pass never meets one, and what it does run is running. */
  lemma {:induction false} FinishedIsNeverRun(es: seq<Event>)
    requires Legal(es)
    ensures !InPass(Run(es).runner) ==> NoneFinished(Run(es).sh)
    ensures Run(es).runner.Pass? && AtProcess(Run(es), Run(es).runner.pass) ==>
        Run(es).sh.processes[Run(es).runner.pass.list[Run(es).runner.pass.at]].state != Finished
    ensures Run(es).runner.AboutToRun? ==>
        AtProcess(Run(es), Run(es).runner.pass) &&
        Run(es).sh.processes[Run(es).runner.pass.list[Run(es).runner.pass.at]].state == Running
  {
    InvHolds(es);
    var s := Run(es);
    if s.runner.Pass? && AtProcess(s, s.runner.pass) {
      var pass := s.runner.pass;
      assert s.sh.ring[pass.at] == pass.list[pass.at];
      forall i | 0 <= i < pass.at ensures pass.list[i] != pass.list[pass.at] {
        assert s.sh.ring[i] == pass.list[i];
      }
    }
  }

  /** The assertion after a run, `newState == Finished || !toBeStopped`, holds if and only if the
      coroutine finished or had not been told to stop when the runner asked: a resume or terminate
      arriving in between cannot break it. */
  lemma {:induction false} StopAssertion(es: seq<Event>)
    requires Legal(es) && Run(es).runner.HasRun?
    ensures AtProcess(Run(es), Run(es).runner.pass)
    ensures
      var s := Run(es);
      (s.sh.processes[s.runner.pass.list[s.runner.pass.at]].state == Finished || !s.runner.toBeStopped) <==>
      (s.runner.outcome == Finished || !s.runner.toBeStopped)
  {
    InvHolds(es);
  }

  /** Every coroutine finishes when it is run with its work flag cleared. */
  ghost predicate Obedient(es: seq<Event>)
    requires Legal(es)
  {
    es == [] ||
    (var s, e := Run(es[..|es| - 1]), es[|es| - 1];
     Obedient(es[..|es| - 1]) &&
     (e.RunOne? && !s.sh.processes[s.runner.pass.list[s.runner.pass.at]].work ==> e.next == Finished))
  }

  lemma {:induction false} ObedientFinish(es: seq<Event>)
    requires Legal(es) && Obedient(es)
    ensures Run(es).runner.HasRun? && Run(es).runner.toBeStopped ==> Run(es).runner.outcome == Finished
  {
    if es != [] {
      ObedientFinish(es[..|es| - 1]);
      InvHolds(es[..|es| - 1]);
    }
  }

  /** So coroutines that finish whenever they see the work flag cleared never break the assertion: the runner
      asks before it runs them, and who was told to stop by then still is when it runs. */
  lemma {:induction false} ObedientCoroutinesPass(es: seq<Event>)
    requires Legal(es) && Obedient(es) && Run(es).runner.HasRun?
    ensures AtProcess(Run(es), Run(es).runner.pass)
    ensures
      var s := Run(es);
      s.sh.processes[s.runner.pass.list[s.runner.pass.at]].state == Finished || !s.runner.toBeStopped
  {
    ObedientFinish(es);
    StopAssertion(es);
  }

  /** A process being run in a pass. */
  datatype Turn = Turn(position: nat, process: nat)

  /** The processes run since the last snapshot was taken. */
  function TurnsSince(es: seq<Event>): seq<Turn>
    requires Legal(es)
  {
    if es == [] then [] else NextTurns(Run(es[..|es| - 1]), es[|es| - 1], TurnsSince(es[..|es| - 1]))
  }

  ghost predicate OnceEach(turns: seq<Turn>) {
    forall i, j | 0 <= i < j < |turns| ::
      turns[i].position < turns[j].position && turns[i].process != turns[j].process
  }

  /** The turns of a pass lie behind it, or are the present one. */
  ghost predicate Behind(r: Runner, turns: seq<Turn>) {
    InPass(r) ==> forall i | 0 <= i < |turns| ::
      && turns[i].position < |r.pass.list| && r.pass.list[turns[i].position] == turns[i].process
      && (turns[i].position < r.pass.at || (r.HasRun? && turns[i].position == r.pass.at))
  }

  function NextTurns(s: State, e: Event, turns: seq<Turn>): seq<Turn>
    requires Enabled(s, e)
  {
    if e.Snapshot? then []
    else if e.RunOne? then turns + [Turn(s.runner.pass.at, s.runner.pass.list[s.runner.pass.at])]
    else turns
  }

  lemma {:induction false} OnceStep(s: State, e: Event, turns: seq<Turn>)
    requires Enabled(s, e) && OnceEach(turns) && Behind(s.runner, turns)
    requires InPass(s.runner) ==> NoRepeats(s.runner.pass.list)
    ensures OnceEach(NextTurns(s, e, turns))
  {
  }

  lemma {:induction false} BehindStep(s: State, e: Event, turns: seq<Turn>)
    requires Enabled(s, e) && Behind(s.runner, turns)
    ensures Behind(Step(s, e).runner, NextTurns(s, e, turns))
  {
  }

  /** Between two snapshots each process is run at most once, in ring order. */
  lemma {:induction false} EachRunOncePerPass(es: seq<Event>)
    requires Legal(es)
    ensures OnceEach(TurnsSince(es)) && Behind(Run(es).runner, TurnsSince(es))
  {
    if es != [] {
      EachRunOncePerPass(es[..|es| - 1]);
      if InPass(Run(es[..|es| - 1]).runner) {
        SnapshotHasNoRepeats(es[..|es| - 1]);
      }
      OnceStep(Run(es[..|es| - 1]), es[|es| - 1], TurnsSince(es[..|es| - 1]));
      BehindStep(Run(es[..|es| - 1]), es[|es| - 1], TurnsSince(es[..|es| - 1]));
    }
  }

  /** A pass works on the front of the ring, which has no process twice. */
  lemma {:induction false} SnapshotHasNoRepeats(es: seq<Event>)
    requires Legal(es) && InPass(Run(es).runner)
    ensures NoRepeats(Run(es).runner.pass.list)
    ensures Run(es).runner.pass.list <= Run(es).sh.ring
  {
    InvHolds(es);
    var s := Run(es);
    forall i, j | 0 <= i < j < |s.runner.pass.list|
      ensures s.runner.pass.list[i] != s.runner.pass.list[j]
    {
      assert s.sh.ring[i] == s.runner.pass.list[i] && s.sh.ring[j] == s.runner.pass.list[j];
    }
  }

  // ----- the methods are the steps of one thread -----

  lemma {:induction false} AddIsItsSteps(s: State, t: nat)
    requires Idle(s, t)
    ensures
      var a := Step(s, Make(t));
      Enabled(a, PushNew(t)) &&
      var b := Step(a, PushNew(t));
      Enabled(b, Wake(t)) &&
      var c := Step(b, Wake(t));
      Enabled(c, Notify(t)) && Step(c, Notify(t)).sh == AfterAdd(s.sh) && Step(c, Notify(t)).clients == s.clients
  {
    assert s.clients[t := Notifying] - {t} == s.clients;
  }

  lemma {:induction false} ResumeIsItsSteps(s: State, t: nat, p: nat)
    requires Idle(s, t) && p < |s.sh.processes|
    ensures
      var a := Step(s, Resume(t, p));
      Enabled(a, Wake(t)) &&
      var b := Step(a, Wake(t));
      Enabled(b, Notify(t)) && Step(b, Notify(t)).sh == AfterResume(s.sh, p) && Step(b, Notify(t)).clients == s.clients
  {
    assert s.clients[t := Notifying] - {t} == s.clients;
  }

  lemma {:induction false} TerminateIsItsSteps(s: State, t: nat, p: nat)
    requires Idle(s, t) && p < |s.sh.processes|
    ensures
      var a := Step(s, Terminate(t, p));
      Enabled(a, SetTerminated(t)) &&
      var b := Step(a, SetTerminated(t));
      Enabled(b, Wake(t)) &&
      var c := Step(b, Wake(t));
      && Enabled(c, Notify(t))
      && Step(c, Notify(t)).sh == AfterTerminate(s.sh, p) && Step(c, Notify(t)).clients == s.clients
  {
    assert s.clients[t := Notifying] - {t} == s.clients;
  }

  lemma {:induction false} StopIsItsSteps(s: State, t: nat)
    requires Idle(s, t) && s.sh.working
    ensures
      var a := Step(s, Stop(t));
      Enabled(a, Wake(t)) &&
      var b := Step(a, Wake(t));
      Enabled(b, Notify(t)) && Step(b, Notify(t)).sh == AfterStop(s.sh) && Step(b, Notify(t)).clients == s.clients
  {
    assert s.clients[t := Notifying] - {t} == s.clients;
  }

  // ----- an undisturbed pass -----

  /** A step of the runner within a pass, with `outcome` saying what the coroutines say. */
  ghost predicate OfPass(s: State, e: Event, outcome: nat -> ProcessState)
    requires Enabled(s, e)
  {
    || e.Examine? || e.ReadWork? || e.ReadNewState?
    || (e.RunOne? && e.next == outcome(s.runner.pass.list[s.runner.pass.at]))
  }

  /** The run ends with a snapshot taken in `before` and steps of that pass only. */
  ghost predicate PassSince(es: seq<Event>, before: State, outcome: nat -> ProcessState)
    requires Legal(es)
  {
    es != [] &&
    (var s, e := Run(es[..|es| - 1]), es[|es| - 1];
     (e.Snapshot? && s == before) || (OfPass(s, e, outcome) && PassSince(es[..|es| - 1], before, outcome)))
  }

  function ProcessesOf(turns: seq<Turn>): seq<nat> {
    if turns == [] then [] else ProcessesOf(turns[..|turns| - 1]) + [turns[|turns| - 1].process]
  }

  /** The turns before the runner's position. */
  function TurnsBehind(before: State, s: State, runs: seq<nat>, outcome: nat -> ProcessState): PassResult
    requires InPass(s.runner) && s.runner.pass.at <= |before.sh.ring|
  {
    TurnsTaken(before.sh.processes, runs, before.sh.ring[..s.runner.pass.at], outcome)
  }

  /** The pass is where the turns behind it lead, or in the middle of the next one. */
  ghost predicate PassAt(before: State, s: State, runs: seq<nat>, turns: seq<Turn>, outcome: nat -> ProcessState) {
    && InPass(s.runner) && s.runner.pass.list == before.sh.ring && s.runner.pass.at <= |before.sh.ring|
    && s.clients == before.clients
    && (var r, pass := TurnsBehind(before, s, runs, outcome), s.runner.pass;
        && pass.hasRunning == r.hasRunning && pass.toRemove == r.toRemove
        && (!s.runner.HasRun? ==>
             s.sh == before.sh.(processes := r.processes) && runs + ProcessesOf(turns) == r.runs)
        && (s.runner.SeenRunning? || s.runner.AboutToRun? || s.runner.HasRun? ==>
             && pass.at < |pass.list| && pass.list[pass.at] < |r.processes|
             && r.processes[pass.list[pass.at]].state == Running)
        && (s.runner.HasRun? ==>
             && s.sh == RanTo(before.sh.(processes := r.processes), pass.list[pass.at], outcome(pass.list[pass.at]))
             && runs + ProcessesOf(turns) == r.runs + [pass.list[pass.at]]))
  }

  lemma {:induction false} OneMoreTurn(was: seq<Process>, runs: seq<nat>, list: seq<nat>, at: nat,
      outcome: nat -> ProcessState)
    requires at < |list| && list[at] < |was|
    ensures
      var r, next := TurnsTaken(was, runs, list[..at], outcome), TurnsTaken(was, runs, list[..at + 1], outcome);
      var p := list[at];
      if r.processes[p].state != Running then next == r
      else next == PassResult(
        r.processes[p := r.processes[p].(state := outcome(p))], r.hasRunning || outcome(p) == Running,
        if outcome(p) == Finished then r.toRemove + {p} else r.toRemove, r.runs + [p])
  {
    assert list[..at + 1][..at] == list[..at];
  }

  lemma {:induction false} ExamineInPass(before: State, s: State, runs: seq<nat>, turns: seq<Turn>,
      outcome: nat -> ProcessState)
    requires Enabled(s, Examine) && PassAt(before, s, runs, turns, outcome)
    ensures PassAt(before, Step(s, Examine), runs, turns, outcome)
  {
    OneMoreTurn(before.sh.processes, runs, before.sh.ring, s.runner.pass.at, outcome);
  }

  lemma {:induction false} ProcessesOfLast(turns: seq<Turn>, turn: Turn)
    ensures ProcessesOf(turns + [turn]) == ProcessesOf(turns) + [turn.process]
  {
    assert (turns + [turn])[..|turns|] == turns;
  }

  lemma {:induction false} RunOneInPass(before: State, s: State, next: ProcessState, runs: seq<nat>, turns: seq<Turn>,
      outcome: nat -> ProcessState)
    requires Enabled(s, RunOne(next)) && OfPass(s, RunOne(next), outcome) && PassAt(before, s, runs, turns, outcome)
    ensures PassAt(before, Step(s, RunOne(next)), runs, NextTurns(s, RunOne(next), turns), outcome)
  {
    ProcessesOfLast(turns, Turn(s.runner.pass.at, s.runner.pass.list[s.runner.pass.at]));
  }

  lemma {:induction false} ReadNewStateInPass(before: State, s: State, runs: seq<nat>, turns: seq<Turn>,
      outcome: nat -> ProcessState)
    requires Enabled(s, ReadNewState) && PassAt(before, s, runs, turns, outcome)
    ensures PassAt(before, Step(s, ReadNewState), runs, turns, outcome)
  {
    OneMoreTurn(before.sh.processes, runs, before.sh.ring, s.runner.pass.at, outcome);
  }

  lemma {:induction false} PassAtStep(before: State, s: State, e: Event, runs: seq<nat>, turns: seq<Turn>,
      outcome: nat -> ProcessState)
    requires Enabled(s, e) && OfPass(s, e, outcome) && PassAt(before, s, runs, turns, outcome)
    ensures PassAt(before, Step(s, e), runs, NextTurns(s, e, turns), outcome)
  {
    match e
    case Examine => ExamineInPass(before, s, runs, turns, outcome);
    case RunOne(next) => RunOneInPass(before, s, next, runs, turns, outcome);
    case ReadNewState => ReadNewStateInPass(before, s, runs, turns, outcome);
    case ReadWork =>
  }

  lemma {:induction false} PassSoFar(es: seq<Event>, before: State, runs: seq<nat>, outcome: nat -> ProcessState)
    requires Legal(es) && before.sh.working && PassSince(es, before, outcome)
    ensures PassAt(before, Run(es), runs, TurnsSince(es), outcome)
  {
    var front, e := es[..|es| - 1], es[|es| - 1];
    if OfPass(Run(front), e, outcome) {
      PassSoFar(front, before, runs, outcome);
      PassAtStep(before, Run(front), e, runs, TurnsSince(front), outcome);
    }
  }

  /** An undisturbed pass is its steps: snapshot, one turn after the other, and the removal. */
  lemma {:induction false} PassIsItsSteps(es: seq<Event>, before: State, runs: seq<nat>, outcome: nat -> ProcessState)
    requires Legal(es) && before.sh.working && PassSince(es, before, outcome) && Enabled(Run(es), EndPass)
    ensures
      var r, after := TurnsTaken(before.sh.processes, runs, before.sh.ring, outcome), Step(Run(es), EndPass);
      && after.sh == Passed(before.sh, r) && runs + ProcessesOf(TurnsSince(es)) == r.runs
      && after.clients == before.clients && after.runner == if r.hasRunning then LoopHead else Parking
  {
    PassSoFar(es, before, runs, outcome);
    assert before.sh.ring[..|before.sh.ring|] == before.sh.ring;
  }

  lemma {:induction false} AtKnownProcess(s: State)
    requires RingInv(s) && PassInv(s) && InPass(s.runner) && s.runner.pass.at < |s.runner.pass.list|
    ensures AtProcess(s, s.runner.pass)
  {
    var pass := s.runner.pass;
    assert pass.list[pass.at] == s.sh.ring[..|pass.list|][pass.at] == s.sh.ring[pass.at];
    assert s.sh.ring[pass.at] in s.sh.ring;
  }

  /** And it comes to its end. */
  lemma {:induction false} PassComesToItsEnd(es: seq<Event>, before: State, outcome: nat -> ProcessState)
    returns (all: seq<Event>)
    requires Legal(es) && before.sh.working && PassSince(es, before, outcome)
    ensures Legal(all) && PassSince(all, before, outcome) && Enabled(Run(all), EndPass)
    decreases Left(Run(es).runner)
  {
    var s := Run(es);
    InvHolds(es);
    PassSoFar(es, before, [], outcome);
    if Enabled(s, EndPass) {
      all := es;
    } else {
      AtKnownProcess(s);
      var e := NextOfPass(s, outcome);
      assert (es + [e])[..|es|] == es;
      all := PassComesToItsEnd(es + [e], before, outcome);
    }
  }

  /** How many steps of the pass are still to be made, at most. */
  function Left(r: Runner): nat {
    if !InPass(r) || r.pass.at > |r.pass.list| then 0
    else
      var phase := if r.Pass? then 0 else if r.SeenRunning? then 1 else if r.AboutToRun? then 2 else 3;
      4 * (|r.pass.list| - r.pass.at) + 3 - phase
  }

  function NextOfPass(s: State, outcome: nat -> ProcessState): (e: Event)
    requires InPass(s.runner) && AtProcess(s, s.runner.pass)
    ensures Enabled(s, e) && OfPass(s, e, outcome) && Left(Step(s, e).runner) < Left(s.runner)
  {
    match s.runner
    case Pass(_) => Examine
    case SeenRunning(_) => ReadWork
    case AboutToRun(pass, _) => RunOne(outcome(pass.list[pass.at]))
    case HasRun(_, _, _) => ReadNewState
  }
}
