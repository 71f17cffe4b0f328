/** The database thread: tasks go through a bounded queue, and closing puts a last task into it. */
module AsyncDatabase {
  import opened Wrappers
  import Q = TsQueue

  datatype Task = Work(id: nat) | Close

  /** What the database thread has run, in order: tasks taken from the queue, and tasks added by a task
      being run, which are run on the spot. */
  datatype Entry = FromQueue(task: Task) | Inline(task: Task)

  datatype DbThread = Popping | Running(task: Task) | Ended

  /** Where the thread in stopExecutor is. */
  datatype Stopper = Outside | Flagged | AddingClose | ClosePushed | QueueStopped | Joined

  /** `callers` are the threads between the test of `working` and the one in TS_Queue's push. */
  datatype State = State(q: Q.State<Task>, working: bool, callers: map<nat, Task>, dropped: seq<Task>,
                         db: DbThread, stopper: Stopper, ran: seq<Entry>)

  /** Thread 0 is the one that closes the database. */
  datatype Event =
    | CallAddTask(thread: nat, id: nat)
    | CheckStopped(thread: nat)
    | Push(thread: nat)
    | BeginStop
    | AddClose
    | PushClose
    | StopQueue
    | Join
    | DbPop
    | DbRunInline(id: nat)
    | DbFinish

  const LIMIT := 10240
  const STOPPER := 0

  predicate Enabled(s: State, e: Event) {
    match e
    case CallAddTask(t, _) => t != STOPPER && t !in s.callers && t !in s.q.entered
    case CheckStopped(t) => t in s.callers && t !in s.q.entered
    case Push(t) => t != STOPPER && Q.Enabled(s.q, Q.Push(t))
    case BeginStop => s.working && s.stopper == Outside
    case AddClose => s.stopper == Flagged && STOPPER !in s.q.entered
    case PushClose => s.stopper == AddingClose && Q.Enabled(s.q, Q.Push(STOPPER))
    case StopQueue => s.stopper == ClosePushed
    case Join => s.stopper == QueueStopped && s.db == Ended
    case DbPop => s.db == Popping && Q.Enabled(s.q, Q.Pop)
    case DbRunInline(_) => s.db.Running?
    case DbFinish => s.db.Running?
  }

  function Step(s: State, e: Event): State
    requires Enabled(s, e)
  {
    match e
    case CallAddTask(t, id) => s.(callers := s.callers[t := Work(id)])
    case CheckStopped(t) =>
      s.(q := Q.Step(s.q, Q.Enter(t, s.callers[t])), callers := s.callers - {t},
         dropped := if s.q.queue.stopped then s.dropped + [s.callers[t]] else s.dropped)
    case Push(t) => s.(q := Q.Step(s.q, Q.Push(t)))
    case BeginStop => s.(working := false, stopper := Flagged)
    case AddClose => s.(q := Q.Step(s.q, Q.Enter(STOPPER, Close)), stopper := AddingClose)
    case PushClose => s.(q := Q.Step(s.q, Q.Push(STOPPER)), stopper := ClosePushed)
    case StopQueue => s.(q := Q.Step(s.q, Q.Stop), stopper := QueueStopped)
    case Join => s.(stopper := Joined)
    case DbPop =>
      var t := s.(q := Q.Step(s.q, Q.Pop));
      (match Q.Head(s.q.queue)
       case Some(task) => t.(db := Running(task), ran := s.ran + [FromQueue(task)])
       case None => t.(db := Ended))
    case DbRunInline(id) => s.(ran := s.ran + [Inline(Work(id))])
    case DbFinish => s.(db := Popping)
  }

  function Initial(): State {
    State(Q.Initial(LIMIT), true, map[], [], Popping, Outside, [])
  }

  predicate Legal(es: seq<Event>)
    decreases |es|, 0
  {
    es == [] || (Legal(es[..|es| - 1]) && Enabled(Run(es[..|es| - 1]), es[|es| - 1]))
  }

  function Run(es: seq<Event>): State
    requires Legal(es)
    decreases |es|, 1
  {
    if es == [] then Initial() else Step(Run(es[..|es| - 1]), es[|es| - 1])
  }

  function TakenTasks(ran: seq<Entry>): seq<Task> {
    if ran == [] then []
    else
      var front, x := ran[..|ran| - 1], ran[|ran| - 1];
      TakenTasks(front) + (if x.FromQueue? then [x.task] else [])
  }

  /** The executor's loop, once the queue is stopped: it runs what is left, in order, and ends. */
  class Executor {
    const tasks: Q.TS_Queue<Task>
    var ran: seq<Task>

    constructor (queue: Q.TS_Queue<Task>)
      ensures tasks == queue && ran == []
    {
      tasks, ran := queue, [];
    }

    method Begin()
      requires tasks.stopped
      modifies this, tasks
      ensures ran == old(ran) + old(tasks.queue)
      ensures tasks.View() == old(tasks.View()).(items := [])
    {
      var taskOpt := tasks.Pop();
      while taskOpt.Some?
        invariant tasks.stopped && tasks.View() == old(tasks.View()).(items := tasks.queue)
        invariant ran + (if taskOpt.Some? then [taskOpt.value] else []) + tasks.queue == old(ran) + old(tasks.queue)
        invariant taskOpt == None ==> tasks.queue == []
        decreases |tasks.queue|, taskOpt.Some?
      {
        ran := ran + [taskOpt.value];
        taskOpt := tasks.Pop();
      }
      assert ran + [] + [] == ran;
    }
  }

  // ----- the invariant -----

  predicate NobodyInside(s: State) {
    s.callers == map[] && s.q.entered == map[]
  }

  function StopperAt(x: Stopper): nat {
    match x
    case Outside => 0
    case Flagged => 1
    case AddingClose => 2
    case ClosePushed => 3
    case QueueStopped => 4
    case Joined => 5
  }

  ghost predicate QueueInv(s: State) {
    && |s.q.queue.items| <= LIMIT && s.q.queue.limit == LIMIT
    && TakenTasks(s.ran) + s.q.queue.items == s.q.history.pushed
  }

  ghost predicate StopInv(s: State) {
    && (s.q.queue.stopped <==> StopperAt(s.stopper) >= 4)
    && (s.working <==> s.stopper == Outside)
  }

  /** The closing task is added by its own thread only. */
  ghost predicate ThreadsInv(s: State) {
    && (forall t | t in s.callers :: t != STOPPER && s.callers[t] != Close)
    && (forall t | t in s.q.entered && t != STOPPER :: s.q.entered[t] != Close)
    && (STOPPER in s.q.entered <==> s.stopper == AddingClose)
    && (s.stopper == AddingClose ==> s.q.entered[STOPPER] == Close)
  }

  ghost predicate OneCloseInv(s: State) {
    multiset(s.q.history.pushed)[Close] == (if StopperAt(s.stopper) >= 3 then 1 else 0)
  }

  ghost predicate CloseInv(s: State) {
    StopInv(s) && ThreadsInv(s) && OneCloseInv(s)
  }

  ghost predicate EndInv(s: State) {
    && (s.stopper == Joined ==> s.db == Ended)
    && (s.db == Ended ==> StopperAt(s.stopper) >= 4 && Close in TakenTasks(s.ran))
  }

  lemma {:induction false} TakenOneMore(ran: seq<Entry>, x: Entry)
    ensures TakenTasks(ran + [x]) == TakenTasks(ran) + (if x.FromQueue? then [x.task] else [])
  {
    assert (ran + [x])[..|ran|] == ran;
  }

  lemma {:induction false} PopStep(s: State)
    requires Enabled(s, DbPop) && QueueInv(s)
    ensures QueueInv(Step(s, DbPop))
  {
    var items, taken := s.q.queue.items, TakenTasks(s.ran);
    if items != [] {
      TakenOneMore(s.ran, FromQueue(items[0]));
      assert items == [items[0]] + items[1..];
      assert taken + [items[0]] + items[1..] == taken + items;
    }
  }

  lemma {:induction false} QueueStep(s: State, e: Event)
    requires Enabled(s, e) && QueueInv(s)
    ensures QueueInv(Step(s, e))
  {
    if e.DbPop? {
      PopStep(s);
    } else if e.DbRunInline? {
      TakenOneMore(s.ran, Inline(Work(e.id)));
      assert TakenTasks(s.ran) + [] == TakenTasks(s.ran);
    }
  }

  lemma {:induction false} StopStep(s: State, e: Event)
    requires Enabled(s, e) && StopInv(s)
    ensures StopInv(Step(s, e))
  {
  }

  lemma {:induction false} ThreadsStep(s: State, e: Event)
    requires Enabled(s, e) && StopInv(s) && ThreadsInv(s)
    ensures ThreadsInv(Step(s, e))
  {
  }

  lemma {:induction false} OneCloseStep(s: State, e: Event)
    requires Enabled(s, e) && ThreadsInv(s) && OneCloseInv(s)
    ensures OneCloseInv(Step(s, e))
  {
    match e
    case Push(t) => OneClosePush(s, t);
    case PushClose => CloseCount(s.q.history.pushed, Close);
    case _ =>
  }

  lemma {:induction false} OneClosePush(s: State, t: nat)
    requires Enabled(s, Push(t)) && ThreadsInv(s) && OneCloseInv(s)
    ensures OneCloseInv(Step(s, Push(t)))
  {
    CloseCount(s.q.history.pushed, s.q.entered[t]);
  }

  lemma {:induction false} CloseCount(pushed: seq<Task>, x: Task)
    ensures multiset(pushed + [x])[Close] == multiset(pushed)[Close] + (if x == Close then 1 else 0)
  {
  }

  lemma {:induction false} CloseStep(s: State, e: Event)
    requires Enabled(s, e) && CloseInv(s)
    ensures CloseInv(Step(s, e))
  {
    StopStep(s, e);
    ThreadsStep(s, e);
    OneCloseStep(s, e);
  }

  lemma {:induction false} EndStep(s: State, e: Event)
    requires Enabled(s, e) && QueueInv(s) && CloseInv(s) && EndInv(s)
    ensures EndInv(Step(s, e))
  {
    if e.DbPop? {
      EndPop(s);
    } else if e.DbRunInline? {
      TakenOneMore(s.ran, Inline(Work(e.id)));
    }
  }

  /** The thread ends only when the closing task, which is pushed before the stop, has been taken. */
  lemma {:induction false} EndPop(s: State)
    requires Enabled(s, DbPop) && QueueInv(s) && CloseInv(s) && EndInv(s)
    ensures EndInv(Step(s, DbPop))
  {
    if s.q.queue.items != [] {
      TakenOneMore(s.ran, FromQueue(s.q.queue.items[0]));
    } else {
      assert TakenTasks(s.ran) + [] == TakenTasks(s.ran);
      assert Close in multiset(s.q.history.pushed);
    }
  }

  lemma {:induction false} InvHolds(es: seq<Event>)
    requires Legal(es)
    ensures QueueInv(Run(es)) && CloseInv(Run(es)) && EndInv(Run(es))
  {
    if es != [] {
      var s, e := Run(es[..|es| - 1]), es[|es| - 1];
      InvHolds(es[..|es| - 1]);
      QueueStep(s, e);
      CloseStep(s, e);
      EndStep(s, e);
    }
  }

  // ----- what every run keeps -----

  /** In every run: the database thread runs queued tasks in push order, each once; when it has ended, the
      closing task was run exactly once and the queue has been stopped. */
  lemma {:induction false} InOrderAndClosed(es: seq<Event>)
    requires Legal(es)
    ensures TakenTasks(Run(es).ran) <= Run(es).q.history.pushed && |Run(es).q.queue.items| <= LIMIT
    ensures multiset(TakenTasks(Run(es).ran))[Close] <= 1
    ensures Run(es).db == Ended ==> Run(es).q.queue.stopped && multiset(TakenTasks(Run(es).ran))[Close] == 1
  {
    InvHolds(es);
    var s := Run(es);
    assert multiset(s.q.history.pushed) == multiset(TakenTasks(s.ran)) + multiset(s.q.queue.items);
  }

  /** Nobody is inside addTask when the stop begins, and the assertion at its start holds for every call:
      nobody calls it later. */
  ghost predicate Quiet(es: seq<Event>)
    requires Legal(es)
  {
    es == [] ||
    (var s, e := Run(es[..|es| - 1]), es[|es| - 1];
     Quiet(es[..|es| - 1]) && (e.BeginStop? ==> NobodyInside(s)) && (e.CallAddTask? ==> s.working))
  }

  ghost predicate QuietInv(s: State) {
    && s.dropped == []
    && (s.stopper != Outside ==> s.callers == map[] && forall t | t in s.q.entered :: t == STOPPER)
    && (StopperAt(s.stopper) >= 3 ==> s.q.history.pushed != [] && s.q.history.pushed[|s.q.history.pushed| - 1] == Close)
    && (s.db == Ended ==> s.q.queue.items == [])
  }

  lemma {:induction false} QuietStep(s: State, e: Event)
    requires Enabled(s, e) && CloseInv(s) && EndInv(s) && QuietInv(s)
    requires (e.BeginStop? ==> NobodyInside(s)) && (e.CallAddTask? ==> s.working)
    ensures QuietInv(Step(s, e))
  {
  }

  lemma {:induction false} QuietRuns(es: seq<Event>)
    requires Legal(es) && Quiet(es)
    ensures QuietInv(Run(es))
  {
    if es != [] {
      QuietRuns(es[..|es| - 1]);
      InvHolds(es[..|es| - 1]);
      QuietStep(Run(es[..|es| - 1]), es[|es| - 1]);
    }
  }

  /** With no other thread inside addTask when the stop begins, once the database thread has ended every
      queued task was run, exactly once and in push order, and the closing task last; no task was given
      up. */
  lemma {:induction false} AllTasksRunAndCloseIsLast(es: seq<Event>)
    requires Legal(es) && Quiet(es) && Run(es).db == Ended
    ensures
      var ran := TakenTasks(Run(es).ran);
      ran == Run(es).q.history.pushed && Run(es).dropped == [] && NobodyInside(Run(es))
      && ran != [] && ran[|ran| - 1] == Close && Close !in ran[..|ran| - 1]
  {
    InvHolds(es);
    QuietRuns(es);
    var ran := TakenTasks(Run(es).ran);
    assert ran + [] == ran;
    assert ran == ran[..|ran| - 1] + [Close];
    assert multiset(ran)[Close] == multiset(ran[..|ran| - 1])[Close] + 1;
  }

  /** Once ended, the database thread runs nothing more. */
  lemma {:induction false} EndedForGood(es: seq<Event>, more: seq<Event>)
    requires Legal(es) && Run(es).db == Ended && Legal(es + more)
    ensures Run(es + more).db == Ended && Run(es + more).ran == Run(es).ran
    decreases |more|
  {
    if more == [] {
      assert es + more == es;
    } else {
      var front := more[..|more| - 1];
      assert (es + more)[..|es + more| - 1] == es + front;
      EndedForGood(es, front);
    }
  }

  lemma {:induction false} DrainedAtTheEnd(s: State)
    requires Enabled(s, DbPop) && Step(s, DbPop).db == Ended && QueueInv(s)
    ensures TakenTasks(s.ran) == s.q.history.pushed && Step(s, DbPop).ran == s.ran
  {
    assert TakenTasks(s.ran) + [] == TakenTasks(s.ran);
  }

  /** Whatever the other threads do, the thread ends only when all that was pushed has been run; what is
      in the queue after that has been pushed after that. */
  lemma {:induction false} EndsDrained(es: seq<Event>, more: seq<Event>)
    requires Legal(es) && Enabled(Run(es), DbPop) && Step(Run(es), DbPop).db == Ended
    requires Legal(es + [DbPop] + more)
    ensures TakenTasks(Run(es + [DbPop] + more).ran) == Run(es).q.history.pushed
    ensures var r := Run(es + [DbPop] + more);
      r.q.history.pushed == Run(es).q.history.pushed + r.q.queue.items
  {
    OneMore(es, Run(es), DbPop);
    InvHolds(es);
    DrainedAtTheEnd(Run(es));
    EndedForGood(es + [DbPop], more);
    InvHolds(es + [DbPop] + more);
  }

  lemma {:induction false} OneMore(es: seq<Event>, s: State, e: Event)
    requires Legal(es) && Run(es) == s && Enabled(s, e)
    ensures Legal(es + [e]) && Run(es + [e]) == Step(s, e)
  {
    assert (es + [e])[..|es|] == es;
  }

  // ----- tasks added by a running task -----

  /** The tasks that running tasks add, in order. */
  function AddedInside(es: seq<Event>): seq<Task> {
    if es == [] then []
    else AddedInside(es[..|es| - 1]) + (match es[|es| - 1] case DbRunInline(id) => [Work(id)] case _ => [])
  }

  function InlineTasks(ran: seq<Entry>): seq<Task> {
    if ran == [] then []
    else
      var front, x := ran[..|ran| - 1], ran[|ran| - 1];
      InlineTasks(front) + (if x.Inline? then [x.task] else [])
  }

  /** The task was taken from the queue, and everything run since was added by it. */
  ghost predicate RunsSince(ran: seq<Entry>, task: Task) {
    exists i :: 0 <= i < |ran| && ran[i] == FromQueue(task) && forall k | i < k < |ran| :: ran[k].Inline?
  }

  lemma {:induction false} InlineOneMore(ran: seq<Entry>, x: Entry)
    ensures InlineTasks(ran + [x]) == InlineTasks(ran) + (if x.Inline? then [x.task] else [])
  {
    assert (ran + [x])[..|ran|] == ran;
  }

  lemma {:induction false} RunsOn(ran: seq<Entry>, task: Task, x: Entry)
    ensures x == FromQueue(task) ==> RunsSince(ran + [x], task)
    ensures x.Inline? && RunsSince(ran, task) ==> RunsSince(ran + [x], task)
  {
    if x == FromQueue(task) {
      assert (ran + [x])[|ran|] == FromQueue(task);
    }
    if x.Inline? && RunsSince(ran, task) {
      var i :| 0 <= i < |ran| && ran[i] == FromQueue(task) && forall k | i < k < |ran| :: ran[k].Inline?;
      assert (ran + [x])[i] == FromQueue(task);
    }
  }

  lemma {:induction false} InlineStep(s: State, e: Event)
    requires Enabled(s, e) && (s.db.Running? ==> RunsSince(s.ran, s.db.task))
    ensures InlineTasks(Step(s, e).ran) ==
      InlineTasks(s.ran) + (match e case DbRunInline(id) => [Work(id)] case _ => [])
    ensures Step(s, e).db.Running? ==> RunsSince(Step(s, e).ran, Step(s, e).db.task)
  {
    match e
    case DbRunInline(id) =>
      InlineOneMore(s.ran, Inline(Work(id)));
      RunsOn(s.ran, s.db.task, Inline(Work(id)));
    case DbPop =>
      if s.q.queue.items != [] {
        InlineOneMore(s.ran, FromQueue(s.q.queue.items[0]));
        RunsOn(s.ran, s.q.queue.items[0], FromQueue(s.q.queue.items[0]));
      }
    case _ =>
  }

  /** In every run the tasks run on the spot are those added by running tasks, in order; and while a task runs,
      it is the last one taken from the queue, so that what it adds is run within it. */
  lemma {:induction false} AddedInsideIsRunAtOnce(es: seq<Event>)
    requires Legal(es)
    ensures InlineTasks(Run(es).ran) == AddedInside(es)
    ensures Run(es).db.Running? ==> RunsSince(Run(es).ran, Run(es).db.task)
  {
    if es != [] {
      AddedInsideIsRunAtOnce(es[..|es| - 1]);
      InlineStep(Run(es[..|es| - 1]), es[|es| - 1]);
    }
  }

  // ----- no task vanishes -----

  /** The tasks added by an event: a caller's, or the closing one. */
  function NewlyAdded(e: Event): seq<Task> {
    match e
    case CallAddTask(_, id) => [Work(id)]
    case AddClose => [Close]
    case _ => []
  }

  function Added(es: seq<Event>): seq<Task> {
    if es == [] then [] else Added(es[..|es| - 1]) + NewlyAdded(es[|es| - 1])
  }

  function Holders(m: map<nat, Task>, x: Task): set<nat> {
    set t | t in m && m[t] == x
  }

  function Count(m: map<nat, Task>, x: Task): nat {
    |Holders(m, x)|
  }

  lemma {:induction false} CountWithOneMore(m: map<nat, Task>, t: nat, y: Task, x: Task)
    requires t !in m
    ensures Count(m[t := y], x) == Count(m, x) + multiset([y])[x]
  {
    if y == x {
      assert Holders(m[t := y], x) == Holders(m, x) + {t};
    } else {
      assert Holders(m[t := y], x) == Holders(m, x);
    }
  }

  lemma {:induction false} CountWithOneLess(m: map<nat, Task>, t: nat, x: Task)
    requires t in m
    ensures Count(m, x) == Count(m - {t}, x) + multiset([m[t]])[x]
  {
    assert (m - {t})[t := m[t]] == m;
    CountWithOneMore(m - {t}, t, m[t], x);
  }

  lemma {:induction false} NothingCounted(m: map<nat, Task>)
    ensures m == map[] <==> forall x :: Count(m, x) == 0
  {
    if m != map[] {
      var t :| t in m;
      CountWithOneLess(m, t, m[t]);
    }
  }

  /** How often `x` has been pushed, is about to be pushed, or was given up at the stopped test. */
  function Known(s: State, x: Task): nat {
    multiset(s.q.history.pushed)[x] + Count(s.q.entered, x) + Count(s.callers, x) + multiset(s.dropped)[x]
  }

  lemma {:induction false} CheckKeepsKnown(s: State, t: nat, x: Task)
    requires Enabled(s, CheckStopped(t))
    ensures Known(Step(s, CheckStopped(t)), x) == Known(s, x)
  {
    CountWithOneLess(s.callers, t, x);
    CountWithOneMore(s.q.entered, t, s.callers[t], x);
  }

  lemma {:induction false} PushKeepsKnown(s: State, e: Event, x: Task)
    requires Enabled(s, e) && (e.Push? || e.PushClose?)
    ensures Known(Step(s, e), x) == Known(s, x)
  {
    CountWithOneLess(s.q.entered, if e.Push? then e.thread else STOPPER, x);
  }

  lemma {:induction false} KnownStep(s: State, e: Event, x: Task)
    requires Enabled(s, e) && CloseInv(s)
    ensures Known(Step(s, e), x) == Known(s, x) + multiset(NewlyAdded(e))[x]
  {
    match e
    case CallAddTask(t, id) => CountWithOneMore(s.callers, t, Work(id), x);
    case CheckStopped(t) => CheckKeepsKnown(s, t, x);
    case Push(_) => PushKeepsKnown(s, e, x);
    case PushClose => PushKeepsKnown(s, e, x);
    case AddClose => CountWithOneMore(s.q.entered, STOPPER, Close, x);
    case _ =>
  }

  lemma {:induction false} AddedAreKnown(es: seq<Event>, x: Task)
    requires Legal(es)
    ensures multiset(Added(es))[x] == Known(Run(es), x)
  {
    if es != [] {
      InvHolds(es[..|es| - 1]);
      AddedAreKnown(es[..|es| - 1], x);
      KnownStep(Run(es[..|es| - 1]), es[|es| - 1], x);
    }
  }

  /** In every run no task vanishes and none is made up: the added ones are those run, those queued, those of
      the threads inside addTask, and those given up. */
  lemma {:induction false} NoTaskVanishes(es: seq<Event>, x: Task)
    requires Legal(es)
    ensures var s := Run(es);
      multiset(Added(es))[x] ==
      multiset(TakenTasks(s.ran))[x] + multiset(s.q.queue.items)[x] + Count(s.q.entered, x) + Count(s.callers, x)
      + multiset(s.dropped)[x]
  {
    AddedAreKnown(es, x);
    InvHolds(es);
    var s := Run(es);
    assert multiset(s.q.history.pushed) == multiset(TakenTasks(s.ran)) + multiset(s.q.queue.items);
  }

  // ----- which order of events loses a task -----

  /** Some thread comes to its stopped test when the queue has been stopped. */
  ghost predicate TestedLate(es: seq<Event>) {
    exists i, j :: 0 <= i < j < |es| && es[i].StopQueue? && es[j].CheckStopped?
  }

  /** The database thread finds the queue empty and ends. */
  ghost predicate EndsAt(es: seq<Event>, i: nat) {
    i < |es| && es[i].DbPop? && Legal(es[..i]) && Run(es[..i]).q.queue.items == []
  }

  /** Some thread pushes after that. */
  ghost predicate PushedLate(es: seq<Event>) {
    exists i, j :: 0 <= i < j < |es| && EndsAt(es, i) && es[j].Push?
  }

  ghost predicate PushedAfterClose(es: seq<Event>) {
    exists i, j :: 0 <= i < j < |es| && es[i].PushClose? && es[j].Push?
  }

  ghost predicate HasStop(es: seq<Event>) {
    exists i :: 0 <= i < |es| && es[i].StopQueue?
  }

  lemma {:induction false} HasStopInLonger(es: seq<Event>)
    requires es != []
    ensures HasStop(es) <==> HasStop(es[..|es| - 1]) || es[|es| - 1].StopQueue?
  {
    var n := |es| - 1;
    assert forall i | 0 <= i < n :: es[..n][i] == es[i];
  }

  lemma {:induction false} StoppedByEvent(es: seq<Event>)
    requires Legal(es)
    ensures Run(es).q.queue.stopped <==> HasStop(es)
  {
    if es != [] {
      StoppedByEvent(es[..|es| - 1]);
      HasStopInLonger(es);
      StoppedStep(Run(es[..|es| - 1]), es[|es| - 1]);
    }
  }

  lemma {:induction false} StoppedStep(s: State, e: Event)
    requires Enabled(s, e)
    ensures Step(s, e).q.queue.stopped <==> s.q.queue.stopped || e.StopQueue?
    ensures Step(s, e).dropped != [] <==> s.dropped != [] || (e.CheckStopped? && s.q.queue.stopped)
  {
  }

  lemma {:induction false} TestedLateInLonger(es: seq<Event>)
    requires es != []
    ensures TestedLate(es) <==> TestedLate(es[..|es| - 1]) || (es[|es| - 1].CheckStopped? && HasStop(es[..|es| - 1]))
  {
    var n := |es| - 1;
    var front := es[..n];
    assert forall i | 0 <= i < n :: front[i] == es[i];
    if TestedLate(front) {
      var i, j :| 0 <= i < j < |front| && front[i].StopQueue? && front[j].CheckStopped?;
      assert es[i].StopQueue? && es[j].CheckStopped?;
    }
    if TestedLate(es) && !es[n].CheckStopped? {
      var i, j :| 0 <= i < j < |es| && es[i].StopQueue? && es[j].CheckStopped?;
      assert front[i].StopQueue? && front[j].CheckStopped?;
    }
  }

  lemma {:induction false} GivenUpIffTestedLate(es: seq<Event>)
    requires Legal(es)
    ensures Run(es).dropped != [] <==> TestedLate(es)
  {
    if es != [] {
      GivenUpIffTestedLate(es[..|es| - 1]);
      StoppedByEvent(es[..|es| - 1]);
      TestedLateInLonger(es);
      StoppedStep(Run(es[..|es| - 1]), es[|es| - 1]);
    }
  }

  lemma {:induction false} SameEnds(es: seq<Event>, n: nat, i: nat)
    requires i < n <= |es|
    ensures EndsAt(es[..n], i) <==> EndsAt(es, i)
  {
    assert es[..n][..i] == es[..i];
  }

  ghost predicate HasEnd(es: seq<Event>) {
    exists i :: 0 <= i < |es| && EndsAt(es, i)
  }

  lemma {:induction false} HasEndInLonger(es: seq<Event>)
    requires es != []
    ensures HasEnd(es) <==> HasEnd(es[..|es| - 1]) || EndsAt(es, |es| - 1)
  {
    var n := |es| - 1;
    forall i | 0 <= i < n
      ensures EndsAt(es[..n], i) <==> EndsAt(es, i)
    {
      SameEnds(es, n, i);
    }
  }

  lemma {:induction false} EndedByEvent(es: seq<Event>)
    requires Legal(es)
    ensures Run(es).db.Ended? <==> HasEnd(es)
  {
    if es != [] {
      var n := |es| - 1;
      EndedByEvent(es[..n]);
      HasEndInLonger(es);
      InvHolds(es[..n]);
      EndedStep(Run(es[..n]), es[n]);
    }
  }

  lemma {:induction false} LatePush(es: seq<Event>)
    requires es != []
    ensures
      var n := |es| - 1;
      PushedLate(es) <==> PushedLate(es[..n]) || (es[n].Push? && HasEnd(es[..n]))
  {
    var n := |es| - 1;
    var front := es[..n];
    forall i | 0 <= i < n
      ensures front[i] == es[i] && (EndsAt(front, i) <==> EndsAt(es, i))
    {
      SameEnds(es, n, i);
    }
    if PushedLate(front) {
      var i, j :| 0 <= i < j < |front| && EndsAt(front, i) && front[j].Push?;
      assert EndsAt(es, i) && es[j].Push?;
    }
    if PushedLate(es) {
      var i, j :| 0 <= i < j < |es| && EndsAt(es, i) && es[j].Push?;
      assert j < n ==> EndsAt(front, i) && front[j].Push?;
      assert j == n ==> EndsAt(front, i);
    }
  }

  lemma {:induction false} LeftIffPushedLate(es: seq<Event>)
    requires Legal(es)
    ensures if Run(es).db.Ended? then Run(es).q.queue.items != [] <==> PushedLate(es) else !PushedLate(es)
  {
    if es != [] {
      var n := |es| - 1;
      LeftIffPushedLate(es[..n]);
      EndedByEvent(es[..n]);
      InvHolds(es[..n]);
      LatePush(es);
      EndedStep(Run(es[..n]), es[n]);
    }
  }

  /** Once the database thread has ended, only pushes change the queue. */
  lemma {:induction false} EndedStep(s: State, e: Event)
    requires Enabled(s, e) && StopInv(s) && EndInv(s)
    ensures Step(s, e).db.Ended? <==> s.db.Ended? || (e.DbPop? && s.q.queue.items == [])
    ensures s.db.Ended? ==> (Step(s, e).q.queue.items != [] <==> s.q.queue.items != [] || e.Push?)
    ensures !s.db.Ended? && Step(s, e).db.Ended? ==> Step(s, e).q.queue.items == [] && !e.Push?
  {
  }

  /** Exactly when all is well: in a run in which the database thread has ended, every added task has been run
      if and only if no thread came to its stopped test after the queue was stopped, none pushed after the
      thread had ended, and none is still inside addTask. */
  lemma {:induction false} AllRunIff(es: seq<Event>)
    requires Legal(es) && Run(es).db.Ended?
    ensures multiset(Added(es)) == multiset(TakenTasks(Run(es).ran)) <==>
      !TestedLate(es) && !PushedLate(es) && NobodyInside(Run(es))
  {
    var s := Run(es);
    GivenUpIffTestedLate(es);
    LeftIffPushedLate(es);
    AllRunMeansNothingLeft(es);
  }

  lemma {:induction false} SomethingIn(tasks: seq<Task>)
    ensures tasks != [] ==> exists x :: multiset(tasks)[x] > 0
  {
    if tasks != [] {
      assert tasks[0] in multiset(tasks);
    }
  }

  lemma {:induction false} AllRunMeansNothingLeft(es: seq<Event>)
    requires Legal(es)
    ensures var s := Run(es);
      multiset(Added(es)) == multiset(TakenTasks(s.ran)) <==>
        s.q.queue.items == [] && s.dropped == [] && NobodyInside(s)
  {
    var s := Run(es);
    if multiset(Added(es)) == multiset(TakenTasks(s.ran)) {
      forall x
        ensures NowhereElse(s, x)
      {
        NoTaskVanishes(es, x);
      }
      NothingLeft(s);
    }
    if s.q.queue.items == [] && s.dropped == [] && NobodyInside(s) {
      forall x
        ensures multiset(Added(es))[x] == multiset(TakenTasks(s.ran))[x]
      {
        NoTaskVanishes(es, x);
      }
      SameCounts(multiset(Added(es)), multiset(TakenTasks(s.ran)));
    }
  }

  /** The task is not queued, not given up and not held by a thread inside addTask. */
  predicate NowhereElse(s: State, x: Task) {
    && multiset(s.q.queue.items)[x] == 0 && multiset(s.dropped)[x] == 0
    && Count(s.q.entered, x) == 0 && Count(s.callers, x) == 0
  }

  lemma {:induction false} NothingLeft(s: State)
    requires forall x :: NowhereElse(s, x)
    ensures s.q.queue.items == [] && s.dropped == [] && NobodyInside(s)
  {
    forall x
      ensures multiset(s.q.queue.items)[x] == 0 && multiset(s.dropped)[x] == 0
      ensures Count(s.q.entered, x) == 0 && Count(s.callers, x) == 0
    {
      assert NowhereElse(s, x);
    }
    SomethingIn(s.q.queue.items);
    SomethingIn(s.dropped);
    NothingCounted(s.q.entered);
    NothingCounted(s.callers);
  }

  lemma {:induction false} SameCounts(a: multiset<Task>, b: multiset<Task>)
    requires forall x :: a[x] == b[x]
    ensures a == b
  {
  }

  ghost predicate HasClosePush(es: seq<Event>) {
    exists i :: 0 <= i < |es| && es[i].PushClose?
  }

  lemma {:induction false} HasClosePushInLonger(es: seq<Event>)
    requires es != []
    ensures HasClosePush(es) <==> HasClosePush(es[..|es| - 1]) || es[|es| - 1].PushClose?
  {
    var n := |es| - 1;
    assert forall i | 0 <= i < n :: es[..n][i] == es[i];
  }

  lemma {:induction false} PushAfterCloseInLonger(es: seq<Event>)
    requires es != []
    ensures PushedAfterClose(es) <==>
      PushedAfterClose(es[..|es| - 1]) || (es[|es| - 1].Push? && HasClosePush(es[..|es| - 1]))
  {
    var n := |es| - 1;
    var front := es[..n];
    assert forall i | 0 <= i < n :: front[i] == es[i];
    if PushedAfterClose(front) {
      var i, j :| 0 <= i < j < |front| && front[i].PushClose? && front[j].Push?;
      assert es[i].PushClose? && es[j].Push?;
    }
    if PushedAfterClose(es) && !es[n].Push? {
      var i, j :| 0 <= i < j < |es| && es[i].PushClose? && es[j].Push?;
      assert front[i].PushClose? && front[j].Push?;
    }
  }

  predicate LastIsClose(pushed: seq<Task>) {
    pushed != [] && pushed[|pushed| - 1] == Close
  }

  lemma {:induction false} PushedStep(s: State, e: Event)
    requires Enabled(s, e) && CloseInv(s)
    ensures StopperAt(Step(s, e).stopper) >= 3 <==> StopperAt(s.stopper) >= 3 || e.PushClose?
    ensures var pushed := Step(s, e).q.history.pushed;
      LastIsClose(pushed) <==> e.PushClose? || (LastIsClose(s.q.history.pushed) && !e.Push?)
  {
  }

  /** Of the pushed tasks the closing one is the last exactly as long as no thread pushes after it. */
  lemma {:induction false} ClosePushedLast(es: seq<Event>)
    requires Legal(es)
    ensures StopperAt(Run(es).stopper) >= 3 <==> HasClosePush(es)
    ensures LastIsClose(Run(es).q.history.pushed) <==> HasClosePush(es) && !PushedAfterClose(es)
    ensures PushedAfterClose(es) ==> HasClosePush(es)
  {
    if es != [] {
      ClosePushedLast(es[..|es| - 1]);
      InvHolds(es[..|es| - 1]);
      HasClosePushInLonger(es);
      PushAfterCloseInLonger(es);
      PushedStep(Run(es[..|es| - 1]), es[|es| - 1]);
    }
  }

  /** The closing task is the last one run if and only if no thread pushes between its push and the end of the
      database thread, whatever happens later. */
  lemma {:induction false} CloseIsRunLastIff(es: seq<Event>, more: seq<Event>)
    requires Legal(es) && Enabled(Run(es), DbPop) && Step(Run(es), DbPop).db == Ended
    requires Legal(es + [DbPop] + more)
    ensures LastIsClose(TakenTasks(Run(es + [DbPop] + more).ran)) <==> !PushedAfterClose(es)
  {
    EndsDrained(es, more);
    ClosePushedLast(es);
    InvHolds(es);
  }

  // ----- closing comes to its end -----

  /** The steps of the closing thread and of the database thread; the latter adds no tasks of its own. */
  predicate OfClosing(e: Event) {
    match e
    case CallAddTask(_, _) | CheckStopped(_) | Push(_) | BeginStop | DbRunInline(_) => false
    case _ => true
  }

  function NextOfClosing(s: State): Event {
    match s.stopper
    case Flagged => AddClose
    case AddingClose => if Q.HasRoom(s.q.queue) then PushClose else if s.db.Running? then DbFinish else DbPop
    case ClosePushed => StopQueue
    case _ => if s.db.Ended? then Join else if s.db.Running? then DbFinish else DbPop
  }

  function Remaining(s: State): nat {
    2 * |s.q.queue.items| + (match s.db case Ended => 0 case Popping => 1 case Running(_) => 2)
  }

  lemma {:induction false} ClosingStep(s: State)
    requires QueueInv(s) && CloseInv(s) && EndInv(s) && s.stopper != Outside && s.stopper != Joined
    ensures Enabled(s, NextOfClosing(s)) && OfClosing(NextOfClosing(s))
    ensures var r := Step(s, NextOfClosing(s));
      || StopperAt(r.stopper) > StopperAt(s.stopper)
      || (r.stopper == s.stopper && Remaining(r) < Remaining(s))
  {
  }

  /** From any reachable state in which closing has begun: the closing thread and the database thread alone come to the
      end, however full the queue was. */
  lemma {:induction false} ClosingComesToItsEnd(es: seq<Event>) returns (all: seq<Event>)
    requires Legal(es) && Run(es).stopper != Outside
    ensures Legal(all) && es <= all && forall i | |es| <= i < |all| :: OfClosing(all[i])
    ensures Run(all).stopper == Joined && Run(all).db.Ended?
    decreases 5 - StopperAt(Run(es).stopper), Remaining(Run(es))
  {
    var s := Run(es);
    InvHolds(es);
    if s.stopper == Joined {
      all := es;
    } else {
      var e := NextOfClosing(s);
      ClosingStep(s);
      OneMore(es, s, e);
      all := ClosingComesToItsEnd(es + [e]);
      assert all[|es|] == e;
    }
  }

  // ----- runs that lose a task -----

  /** A caller gets past both tests and waits; then the database is stopped up to the end of its thread. */
  function WaitingCaller(): State {
    Step(Step(Initial(), CallAddTask(1, 7)), CheckStopped(1))
  }

  lemma {:induction false} CallerWaits() returns (es: seq<Event>)
    ensures Legal(es) && Run(es) == WaitingCaller()
    ensures WaitingCaller() == Initial().(q := Initial().q.(entered := map[1 := Work(7)]))
  {
    es := [];
    OneMore(es, Initial(), CallAddTask(1, 7));
    es := es + [CallAddTask(1, 7)];
    OneMore(es, Step(Initial(), CallAddTask(1, 7)), CheckStopped(1));
    es := es + [CheckStopped(1)];
    assert map[1 := Work(7)] - {1} == map[];
  }

  lemma {:induction false} StoppedMeanwhile() returns (es: seq<Event>, s: State)
    ensures Legal(es) && Run(es) == s && s.stopper == QueueStopped && s.db == Popping
    ensures s.q.entered == map[1 := Work(7)]
    ensures s.q.queue == Q.Queue([Close], LIMIT, true) && s.ran == []
  {
    es := CallerWaits();
    s := WaitingCaller();
    OneMore(es, s, BeginStop);
    es, s := es + [BeginStop], Step(s, BeginStop);
    OneMore(es, s, AddClose);
    es, s := es + [AddClose], Step(s, AddClose);
    OneMore(es, s, PushClose);
    es, s := es + [PushClose], Step(s, PushClose);
    assert s.q.entered == map[1 := Work(7)];
    OneMore(es, s, StopQueue);
    es, s := es + [StopQueue], Step(s, StopQueue);
  }

  /** And there are such runs: a thread that is inside addTask when the stop begins may push too late, and
      its task is never run. */
  lemma {:induction false} TooLate() returns (es: seq<Event>)
    ensures Legal(es) && Run(es).db == Ended && TakenTasks(Run(es).ran) == [Close] && Run(es).q.queue.items == [Work(7)]
  {
    var s;
    es, s := StoppedMeanwhile();
    es, s := RunsToTheEnd(es, s);
    OneMore(es, s, Push(1));
    es, s := es + [Push(1)], Step(s, Push(1));
  }

  /** The database thread runs the closing task and ends, with no other thread in between. */
  lemma {:induction false} RunsToTheEnd(es: seq<Event>, s: State) returns (es': seq<Event>, s': State)
    requires Legal(es) && Run(es) == s && s.db == Popping && s.q.queue == Q.Queue([Close], LIMIT, true) && s.ran == []
    ensures Legal(es') && Run(es') == s' && s'.db == Ended
    ensures s'.ran == [FromQueue(Close)] && TakenTasks(s'.ran) == [Close]
    ensures s'.q.queue == Q.Queue([], LIMIT, true) && s'.q.entered == s.q.entered
    ensures s'.callers == s.callers && s'.dropped == s.dropped
  {
    es', s' := es, s;
    OneMore(es', s', DbPop);
    es', s' := es' + [DbPop], Step(s', DbPop);
    OneMore(es', s', DbFinish);
    es', s' := es' + [DbFinish], Step(s', DbFinish);
    OneMore(es', s', DbPop);
    es', s' := es' + [DbPop], Step(s', DbPop);
    TakenOneMore([], FromQueue(Close));
  }

  lemma {:induction false} StoppedBeforeTheTest() returns (es: seq<Event>, s: State)
    ensures Legal(es) && Run(es) == s && s.stopper == QueueStopped && s.db == Popping && s.q.entered == map[]
    ensures s.callers == map[1 := Work(7)] && s.q.queue == Q.Queue([Close], LIMIT, true)
    ensures s.ran == [] && s.dropped == []
  {
    es, s := [], Initial();
    OneMore(es, s, CallAddTask(1, 7));
    es, s := es + [CallAddTask(1, 7)], Step(s, CallAddTask(1, 7));
    OneMore(es, s, BeginStop);
    es, s := es + [BeginStop], Step(s, BeginStop);
    OneMore(es, s, AddClose);
    es, s := es + [AddClose], Step(s, AddClose);
    OneMore(es, s, PushClose);
    es, s := es + [PushClose], Step(s, PushClose);
    assert s.q.entered == map[];
    OneMore(es, s, StopQueue);
    es, s := es + [StopQueue], Step(s, StopQueue);
  }

  /** A thread that called addTask while the database was working, but comes to the stopped test too late,
      gives its task up: all that was pushed is run, nobody is inside, and yet the task is not run. */
  lemma {:induction false} GivenUp() returns (es: seq<Event>)
    ensures Legal(es) && Run(es).db == Ended && NobodyInside(Run(es)) && Run(es).q.queue.items == []
    ensures TakenTasks(Run(es).ran) == [Close] && Run(es).dropped == [Work(7)]
  {
    var s;
    es, s := StoppedBeforeTheTest();
    OneMore(es, s, CheckStopped(1));
    es, s := es + [CheckStopped(1)], Step(s, CheckStopped(1));
    assert s.callers == map[];
    es, s := RunsToTheEnd(es, s);
  }
}
