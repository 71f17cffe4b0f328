/** What can happen to a throttled queue, as a record and what it amounts to: a small machine in which a task
    that is being passed to the executor may call the queue again. */
module QueueRecord {

  datatype Mode = Fifo | Lifo

  /** A task, with all that it makes happen to the queue while it is being passed to the executor. */
  datatype Task = Task(name: nat, reaction: seq<Call>)

  /** Push, clear, and the release of the notifier of the task that is `which`-th among those executing. */
  datatype Call = Push(task: Task) | Clear | Finish(which: nat)

  datatype Config = Config(mode: Mode, maxTasks: int)

  // ----- what is recorded, and what a record means -----

  /** The record of a queue: calls made on it, tasks handed to the executor, the executor returning from
      that, and a push or a notification being done with. */
  datatype Entry = Called(call: Call) | Passed(task: Task) | Returned | Served

  /** What is under way: a push or a notification being served, or a task being passed that has still to
      make some calls. The innermost comes last. */
  datatype Frame = Serving | Reacting(calls: seq<Call>)

  /** A ticket taken for execution, with the tickets that were waiting at that moment. */
  datatype Pick = Pick(ticket: nat, among: seq<nat>)

  /** The tasks ever pushed; a task's ticket is its place among them. Tickets waiting, passed, executing,
      finished and dropped; the picks; the calls made from outside; and what is under way. */
  datatype History = History(
    pushed: seq<Task>, waiting: seq<nat>, passed: seq<nat>, executing: seq<nat>, finished: seq<nat>,
    dropped: seq<nat>, picks: seq<Pick>, outer: seq<Call>, stack: seq<Frame>)

  const NO_HISTORY := History([], [], [], [], [], [], [], [], [])

  function Top(h: History): Frame
    requires h.stack != []
  {
    h.stack[|h.stack| - 1]
  }

  function Below(h: History): seq<Frame>
    requires h.stack != []
  {
    h.stack[..|h.stack| - 1]
  }

  /** From outside any call may be made; a task being passed makes the calls it is made of, in order. */
  predicate MayCall(h: History, call: Call) {
    h.stack == [] || (Top(h).Reacting? && Top(h).calls != [] && Top(h).calls[0] == call)
  }

  function Made(h: History, call: Call): History
    requires MayCall(h, call)
  {
    if h.stack == [] then h.(outer := h.outer + [call])
    else h.(stack := Below(h) + [Reacting(Top(h).calls[1..])])
  }

  /** The ticket that is next in the queue's mode. */
  function Next(mode: Mode, h: History): nat
    requires h.waiting != []
  {
    if mode == Fifo then h.waiting[0] else h.waiting[|h.waiting| - 1]
  }

  /** Nothing waits, or as many tasks as allowed are executing. */
  predicate Settled(c: Config, h: History) {
    h.waiting == [] || |h.executing| >= c.maxTasks
  }

  predicate Can(c: Config, h: History, e: Entry) {
    match e
    case Called(call) => MayCall(h, call)
    case Passed(task) =>
      && h.stack != [] && Top(h).Serving? && !Settled(c, h)
      && Next(c.mode, h) < |h.pushed| && h.pushed[Next(c.mode, h)] == task
    case Returned => h.stack != [] && Top(h) == Reacting([])
    case Served => h.stack != [] && Top(h).Serving? && Settled(c, h)
  }

  function WithPush(h: History, task: Task): History {
    h.(pushed := h.pushed + [task], waiting := h.waiting + [|h.pushed|], stack := h.stack + [Serving])
  }

  function WithoutWaiting(h: History): History {
    h.(waiting := [], dropped := h.dropped + h.waiting)
  }

  function WithFinish(h: History, which: nat): History {
    if which < |h.executing| then
      h.(executing := h.executing[..which] + h.executing[which + 1..],
         finished := h.finished + [h.executing[which]], stack := h.stack + [Serving])
    else h
  }

  function WithPick(mode: Mode, h: History): History
    requires h.waiting != []
  {
    var ticket := Next(mode, h);
    h.(waiting := if mode == Fifo then h.waiting[1..] else h.waiting[..|h.waiting| - 1],
       passed := h.passed + [ticket], executing := h.executing + [ticket], picks := h.picks + [Pick(ticket, h.waiting)])
  }

  function WithCall(h: History, call: Call): History {
    match call
    case Push(task) => WithPush(h, task)
    case Clear => WithoutWaiting(h)
    case Finish(which) => WithFinish(h, which)
  }

  function Step(c: Config, h: History, e: Entry): History
    requires Can(c, h, e)
  {
    match e
    case Called(call) => WithCall(Made(h, call), call)
    case Passed(task) => var picked := WithPick(c.mode, h); picked.(stack := picked.stack + [Reacting(task.reaction)])
    case Returned => h.(stack := Below(h))
    case Served => h.(stack := Below(h))
  }

  predicate Legal(c: Config, log: seq<Entry>)
    decreases |log|, 0
  {
    log == [] || (Legal(c, log[..|log| - 1]) && Can(c, Run(c, log[..|log| - 1]), log[|log| - 1]))
  }

  function Run(c: Config, log: seq<Entry>): History
    requires Legal(c, log)
    decreases |log|, 1
  {
    if log == [] then NO_HISTORY else Step(c, Run(c, log[..|log| - 1]), log[|log| - 1])
  }

  lemma {:induction false} OneMore(c: Config, log: seq<Entry>, e: Entry)
    requires Legal(c, log) && Can(c, Run(c, log), e)
    ensures Legal(c, log + [e]) && Run(c, log + [e]) == Step(c, Run(c, log), e)
  {
    assert (log + [e])[..|log|] == log;
  }

  /** While anything is under way only one entry can come next: given the calls made from outside, the
      whole record is determined. */
  lemma {:induction false} OnlyOneWayOn(c: Config, h: History, e: Entry, f: Entry)
    requires h.stack != [] && Can(c, h, e) && Can(c, h, f)
    ensures e == f
  {
  }

  // ----- what every record keeps -----

  ghost predicate Increasing(s: seq<nat>) {
    forall i, j | 0 <= i < j < |s| :: s[i] < s[j]
  }

  /** The picked ticket is the oldest waiting one, or the newest. */
  ghost predicate RightPick(mode: Mode, pick: Pick) {
    pick.ticket in pick.among &&
    forall t | t in pick.among :: if mode == Fifo then pick.ticket <= t else t <= pick.ticket
  }

  function Tickets(n: nat): (r: seq<nat>)
    ensures |r| == n && forall i | 0 <= i < n :: r[i] == i
  {
    seq(n, i => i)
  }

  /** Every pushed task is exactly once waiting, passed or dropped, every passed one exactly once
      executing or finished. */
  ghost predicate Conserved(h: History) {
    && multiset(h.waiting) + multiset(h.passed) + multiset(h.dropped) == multiset(Tickets(|h.pushed|))
    && multiset(h.executing) + multiset(h.finished) == multiset(h.passed)
  }

  /** Picks are right, and are what is passed, in that order; in Fifo mode tasks are passed in the order in
      which they were pushed. */
  ghost predicate InOrder(mode: Mode, h: History) {
    && Increasing(h.waiting)
    && |h.picks| == |h.passed|
    && (forall i | 0 <= i < |h.picks| :: h.picks[i].ticket == h.passed[i] && RightPick(mode, h.picks[i]))
    && (mode == Fifo ==> Increasing(h.passed + h.waiting))
  }

  /** Never more tasks executing than allowed. */
  predicate Limited(c: Config, h: History) {
    |h.executing| <= c.maxTasks || h.executing == []
  }

  /** The outermost thing under way is being served; with nothing under way the queue is settled. */
  predicate Grounded(c: Config, h: History) {
    if h.stack == [] then Settled(c, h) else h.stack[0].Serving?
  }

  predicate Throttled(c: Config, h: History) {
    Limited(c, h) && Grounded(c, h)
  }

  ghost predicate Known(h: History) {
    && (forall t | t in h.waiting :: t < |h.pushed|)
    && (forall t | t in h.passed :: t < |h.pushed|)
  }

  lemma {:induction false} TicketsAreKnown(h: History)
    requires Conserved(h)
    ensures Known(h)
  {
    forall t | t in h.waiting || t in h.passed
      ensures t < |h.pushed|
    {
      assert t in multiset(h.waiting) + multiset(h.passed) + multiset(h.dropped);
      assert t in Tickets(|h.pushed|);
    }
  }

  lemma {:induction false} PushConserves(h: History, task: Task)
    requires Conserved(h)
    ensures Conserved(WithPush(h, task))
  {
    assert Tickets(|h.pushed| + 1) == Tickets(|h.pushed|) + [|h.pushed|];
  }

  lemma {:induction false} FinishConserves(h: History, which: nat)
    requires Conserved(h)
    ensures Conserved(WithFinish(h, which))
  {
    if which < |h.executing| {
      assert h.executing == h.executing[..which] + [h.executing[which]] + h.executing[which + 1..];
    }
  }

  lemma {:induction false} FrontTicket(waiting: seq<nat>)
    requires waiting != []
    ensures multiset(waiting) == multiset(waiting[1..]) + multiset{waiting[0]}
  {
    assert waiting == [waiting[0]] + waiting[1..];
  }

  lemma {:induction false} BackTicket(waiting: seq<nat>)
    requires waiting != []
    ensures multiset(waiting) == multiset(waiting[..|waiting| - 1]) + multiset{waiting[|waiting| - 1]}
  {
    assert waiting == waiting[..|waiting| - 1] + [waiting[|waiting| - 1]];
  }

  lemma {:induction false} PickConserves(mode: Mode, h: History)
    requires Conserved(h) && h.waiting != []
    ensures Conserved(WithPick(mode, h))
  {
    if mode == Fifo {
      FrontTicket(h.waiting);
    } else {
      BackTicket(h.waiting);
    }
    var ticket := Next(mode, h);
    assert multiset(h.passed + [ticket]) == multiset(h.passed) + multiset{ticket};
    assert multiset(h.executing + [ticket]) == multiset(h.executing) + multiset{ticket};
  }

  lemma {:induction false} StepConserves(c: Config, h: History, e: Entry)
    requires Conserved(h) && Can(c, h, e)
    ensures Conserved(Step(c, h, e))
  {
    match e
    case Called(Push(task)) => PushConserves(Made(h, e.call), task);
    case Called(Finish(which)) => FinishConserves(Made(h, e.call), which);
    case Called(Clear) =>
    case Passed(_) => PickConserves(c.mode, h);
    case Returned =>
    case Served =>
  }

  lemma {:induction false} NewestLast(s: seq<nat>, t: nat)
    requires Increasing(s) && forall x | x in s :: x < t
    ensures Increasing(s + [t])
  {
    assert forall i | 0 <= i < |s| :: s[i] in s;
  }

  lemma {:induction false} PushKeepsOrder(mode: Mode, h: History, task: Task)
    requires InOrder(mode, h) && Known(h)
    ensures InOrder(mode, WithPush(h, task))
  {
    NewestLast(h.waiting, |h.pushed|);
    assert h.passed + (h.waiting + [|h.pushed|]) == (h.passed + h.waiting) + [|h.pushed|];
    if mode == Fifo {
      NewestLast(h.passed + h.waiting, |h.pushed|);
    }
  }

  lemma {:induction false} ClearKeepsOrder(mode: Mode, h: History)
    requires InOrder(mode, h)
    ensures InOrder(mode, WithoutWaiting(h))
  {
    assert forall i | 0 <= i < |h.passed| :: (h.passed + h.waiting)[i] == h.passed[i];
    assert h.passed + [] == h.passed;
  }

  lemma {:induction false} PickKeepsOrder(mode: Mode, h: History)
    requires InOrder(mode, h) && h.waiting != []
    ensures InOrder(mode, WithPick(mode, h))
  {
    assert RightPick(mode, Pick(Next(mode, h), h.waiting));
    if mode == Fifo {
      assert (h.passed + [h.waiting[0]]) + h.waiting[1..] == h.passed + h.waiting;
    }
  }

  lemma {:induction false} StepKeepsOrder(c: Config, h: History, e: Entry)
    requires InOrder(c.mode, h) && Known(h) && Can(c, h, e)
    ensures InOrder(c.mode, Step(c, h, e))
  {
    match e
    case Called(Push(task)) => PushKeepsOrder(c.mode, Made(h, e.call), task);
    case Called(Clear) => ClearKeepsOrder(c.mode, Made(h, e.call));
    case Passed(_) => PickKeepsOrder(c.mode, h);
    case _ =>
  }

  lemma {:induction false} StepLimits(c: Config, h: History, e: Entry)
    requires Limited(c, h) && Can(c, h, e)
    ensures Limited(c, Step(c, h, e))
  {
    match e
    case Called(call) =>
      var m := Made(h, call);
      assert m.executing == h.executing;
      assert |WithCall(m, call).executing| <= |m.executing|;
    case Passed(_) => assert |h.executing| < c.maxTasks;
    case _ =>
  }

  lemma {:induction false} CallGrounds(c: Config, h: History, call: Call)
    requires Grounded(c, h) && MayCall(h, call)
    ensures Grounded(c, WithCall(Made(h, call), call))
  {
    var m := Made(h, call);
    assert h.stack != [] ==> m.stack[0].Serving?;
    match call
    case Push(_) => assert (m.stack + [Serving])[0].Serving?;
    case Clear =>
    case Finish(_) => assert (m.stack + [Serving])[0].Serving?;
  }

  lemma {:induction false} StepGrounds(c: Config, h: History, e: Entry)
    requires Grounded(c, h) && Can(c, h, e)
    ensures Grounded(c, Step(c, h, e))
  {
    match e
    case Called(call) => CallGrounds(c, h, call);
    case _ =>
  }

  /** Every record conserves the work, hands tasks over in the right order and never exceeds the limit. */
  lemma {:induction false} SoundInEveryRun(c: Config, log: seq<Entry>)
    requires Legal(c, log)
    ensures Conserved(Run(c, log)) && InOrder(c.mode, Run(c, log)) && Throttled(c, Run(c, log))
  {
    if log == [] {
      assert multiset(Tickets(0)) == multiset{};
    } else {
      var h, e := Run(c, log[..|log| - 1]), log[|log| - 1];
      SoundInEveryRun(c, log[..|log| - 1]);
      TicketsAreKnown(h);
      StepConserves(c, h, e);
      StepKeepsOrder(c, h, e);
      StepLimits(c, h, e);
      StepGrounds(c, h, e);
    }
  }

  /** A notification takes exactly its task out of those executing; one that names none is of no effect. */
  lemma {:induction false} FinishTakesItsTask(c: Config, h: History, which: nat)
    requires Can(c, h, Called(Finish(which)))
    ensures var r := Step(c, h, Called(Finish(which)));
      if which < |h.executing| then
        && |r.executing| == |h.executing| - 1
        && (forall i | 0 <= i < which :: r.executing[i] == h.executing[i])
        && (forall i | which < i < |h.executing| :: r.executing[i - 1] == h.executing[i])
        && r.finished == h.finished + [h.executing[which]]
        && r.stack != [] && Top(r).Serving?
      else r.executing == h.executing && r.finished == h.finished
  {
  }

  /** Clearing drops whatever waits, and nothing else. */
  lemma {:induction false} ClearDropsTheWaiting(c: Config, h: History)
    requires Can(c, h, Called(Clear))
    ensures var r := Step(c, h, Called(Clear));
      && r.waiting == [] && r.dropped == h.dropped + h.waiting
      && r.executing == h.executing && r.finished == h.finished && r.pushed == h.pushed && r.passed == h.passed
  {
  }

  /** Nobody is forgotten: with room for a task, and nothing under way or executing, nothing waits either. */
  lemma {:induction false} NothingIsForgotten(c: Config, log: seq<Entry>)
    requires Legal(c, log) && c.maxTasks > 0
    requires Run(c, log).stack == [] && Run(c, log).executing == []
    ensures var h := Run(c, log);
      h.waiting == [] && multiset(h.finished) + multiset(h.dropped) == multiset(Tickets(|h.pushed|))
  {
    SoundInEveryRun(c, log);
  }

  // ----- conservation of the tasks themselves -----

  function TasksOf(h: History, tickets: seq<nat>): seq<Task>
    requires forall i | 0 <= i < |tickets| :: tickets[i] < |h.pushed|
  {
    seq(|tickets|, i requires 0 <= i < |tickets| => h.pushed[tickets[i]])
  }

  /** Rearranging tickets rearranges tasks. */
  lemma {:induction false} Rearranged(h: History, a: seq<nat>, b: seq<nat>)
    requires forall i | 0 <= i < |a| :: a[i] < |h.pushed|
    requires forall i | 0 <= i < |b| :: b[i] < |h.pushed|
    requires multiset(a) == multiset(b)
    ensures multiset(TasksOf(h, a)) == multiset(TasksOf(h, b))
    decreases |a|
  {
    assert |multiset(a)| == |a| && |multiset(b)| == |b|;
    if a != [] {
      assert a[0] in multiset(b);
      var k :| 0 <= k < |b| && b[k] == a[0];
      var others := b[..k] + b[k + 1..];
      WithoutOne(a, b, k);
      Rearranged(h, a[1..], others);
      assert TasksOf(h, a) == [h.pushed[a[0]]] + TasksOf(h, a[1..]);
      TasksWithoutOne(h, b, k);
    }
  }

  lemma {:induction false} WithoutOne(a: seq<nat>, b: seq<nat>, k: nat)
    requires a != [] && k < |b| && b[k] == a[0] && multiset(a) == multiset(b)
    ensures multiset(a[1..]) == multiset(b[..k] + b[k + 1..])
  {
    assert a == [a[0]] + a[1..];
    assert b == b[..k] + [b[k]] + b[k + 1..];
    assert multiset(a[1..]) == multiset(a) - multiset{a[0]};
  }

  lemma {:induction false} TasksWithoutOne(h: History, b: seq<nat>, k: nat)
    requires k < |b| && forall i | 0 <= i < |b| :: b[i] < |h.pushed|
    ensures multiset(TasksOf(h, b)) == multiset{h.pushed[b[k]]} + multiset(TasksOf(h, b[..k] + b[k + 1..]))
  {
    var front, back := TasksOf(h, b[..k]), TasksOf(h, b[k + 1..]);
    assert TasksOf(h, b) == front + [h.pushed[b[k]]] + back;
    assert TasksOf(h, b[..k] + b[k + 1..]) == front + back;
  }

  function EveryTicket(h: History): seq<nat> {
    h.waiting + h.executing + h.finished + h.dropped
  }

  lemma {:induction false} EveryTicketOnce(h: History)
    requires Conserved(h)
    ensures multiset(EveryTicket(h)) == multiset(Tickets(|h.pushed|))
    ensures forall i | 0 <= i < |EveryTicket(h)| :: EveryTicket(h)[i] < |h.pushed|
  {
    var all := EveryTicket(h);
    assert multiset(all) == multiset(h.waiting) + multiset(h.executing) + multiset(h.finished) + multiset(h.dropped);
    forall i | 0 <= i < |all|
      ensures all[i] < |h.pushed|
    {
      assert all[i] in multiset(all);
      assert all[i] in multiset(Tickets(|h.pushed|));
    }
  }

  /** No task is lost, made up or handed over twice: the pushed tasks are those waiting, executing, finished
      and dropped, and no ticket is passed twice. */
  lemma {:induction false} WorkIsConserved(c: Config, log: seq<Entry>)
    requires Legal(c, log)
    ensures var h := Run(c, log);
      && (forall i | 0 <= i < |EveryTicket(h)| :: EveryTicket(h)[i] < |h.pushed|)
      && multiset(h.pushed) == multiset(TasksOf(h, EveryTicket(h)))
      && (forall i, j | 0 <= i < j < |h.passed| :: h.passed[i] != h.passed[j])
  {
    var h := Run(c, log);
    SoundInEveryRun(c, log);
    EveryTicketOnce(h);
    Rearranged(h, Tickets(|h.pushed|), EveryTicket(h));
    assert TasksOf(h, Tickets(|h.pushed|)) == h.pushed;
    PassedOnce(h);
  }

  lemma {:induction false} PassedOnce(h: History)
    requires Conserved(h)
    ensures forall i, j | 0 <= i < j < |h.passed| :: h.passed[i] != h.passed[j]
  {
    forall i, j | 0 <= i < j < |h.passed|
      ensures h.passed[i] != h.passed[j]
    {
      if h.passed[i] == h.passed[j] {
        var t := h.passed[i];
        assert h.passed == h.passed[..j] + [t] + h.passed[j + 1..];
        assert t in h.passed[..j];
        assert multiset(h.passed)[t] >= 2;
        OnceAmongAll(|h.pushed|, t);
      }
    }
  }

  lemma {:induction false} OnceAmongAll(n: nat, t: nat)
    ensures multiset(Tickets(n))[t] <= 1
  {
    var all := Tickets(n);
    if t < n {
      assert all == all[..t] + [t] + all[t + 1..];
      assert t !in all[..t] && t !in all[t + 1..];
    } else {
      assert t !in all;
    }
  }

  // ----- where the pushed tasks come from -----

  function Pushes(calls: seq<Call>): multiset<Task> {
    if calls == [] then multiset{}
    else (if calls[0].Push? then multiset{calls[0].task} else multiset{}) + Pushes(calls[1..])
  }

  lemma {:induction false} PushesOfLast(calls: seq<Call>, call: Call)
    ensures Pushes(calls + [call]) == Pushes(calls) + Pushes([call])
  {
    if calls == [] {
      assert [] + [call] == [call];
    } else {
      assert (calls + [call])[1..] == calls[1..] + [call];
      PushesOfLast(calls[1..], call);
    }
  }

  /** The pushes that tasks under way have still to make. */
  function StillToPush(stack: seq<Frame>): multiset<Task> {
    if stack == [] then multiset{}
    else
      var top := stack[|stack| - 1];
      StillToPush(stack[..|stack| - 1]) + (if top.Reacting? then Pushes(top.calls) else multiset{})
  }

  /** The pushes made by the tasks handed to the executor. */
  function PushedByPassed(h: History, passed: seq<nat>): multiset<Task>
    requires forall i | 0 <= i < |passed| :: passed[i] < |h.pushed|
  {
    if passed == [] then multiset{}
    else PushedByPassed(h, passed[..|passed| - 1]) + Pushes(h.pushed[passed[|passed| - 1]].reaction)
  }

  ghost predicate Accounted(h: History) {
    && (forall i | 0 <= i < |h.passed| :: h.passed[i] < |h.pushed|)
    && multiset(h.pushed) + StillToPush(h.stack) == Pushes(h.outer) + PushedByPassed(h, h.passed)
  }

  lemma {:induction false} OneMoreFrame(stack: seq<Frame>, f: Frame)
    ensures StillToPush(stack + [f]) == StillToPush(stack) + (if f.Reacting? then Pushes(f.calls) else multiset{})
  {
    assert (stack + [f])[..|stack|] == stack;
  }

  lemma {:induction false} SameFront(h: History, h': History, passed: seq<nat>)
    requires h.pushed <= h'.pushed && forall i | 0 <= i < |passed| :: passed[i] < |h.pushed|
    ensures PushedByPassed(h', passed) == PushedByPassed(h, passed)
  {
    if passed != [] {
      SameFront(h, h', passed[..|passed| - 1]);
    }
  }

  /** Making a call moves its push, if it is one, from what is still to be done to what is done. */
  lemma {:induction false} MadeMoves(h: History, call: Call)
    requires MayCall(h, call)
    ensures var r := Made(h, call);
      Pushes(h.outer) + StillToPush(r.stack) + Pushes([call]) == Pushes(r.outer) + StillToPush(h.stack)
  {
    if h.stack == [] {
      PushesOfLast(h.outer, call);
    } else {
      var calls := Top(h).calls;
      assert h.stack == Below(h) + [Top(h)];
      OneMoreFrame(Below(h), Top(h));
      OneMoreFrame(Below(h), Reacting(calls[1..]));
      assert Pushes(calls) == Pushes([call]) + Pushes(calls[1..]);
    }
  }

  lemma {:induction false} CallAccounted(c: Config, h: History, call: Call)
    requires Accounted(h) && MayCall(h, call)
    ensures Accounted(Step(c, h, Called(call)))
  {
    var m, r := Made(h, call), Step(c, h, Called(call));
    MadeMoves(h, call);
    CallEffect(m, call);
    SameFront(h, r, h.passed);
    Balanced(multiset(h.pushed), Pushes([call]), StillToPush(h.stack), StillToPush(m.stack),
             Pushes(h.outer), Pushes(r.outer), PushedByPassed(h, h.passed));
  }

  lemma {:induction false} CallEffect(m: History, call: Call)
    ensures var r := WithCall(m, call);
      && r.passed == m.passed && r.outer == m.outer && m.pushed <= r.pushed
      && multiset(r.pushed) == multiset(m.pushed) + Pushes([call]) && StillToPush(r.stack) == StillToPush(m.stack)
  {
  }

  lemma {:induction false} Balanced(pushed: multiset<Task>, more: multiset<Task>, still: multiset<Task>,
      still': multiset<Task>, outer: multiset<Task>, outer': multiset<Task>, passed: multiset<Task>)
    requires pushed + still == outer + passed && outer + still' + more == outer' + still
    ensures pushed + more + still' == outer' + passed
  {
    forall x: Task
      ensures (pushed + more + still')[x] == (outer' + passed)[x]
    {
      assert (pushed + still)[x] == (outer + passed)[x];
      assert (outer + still' + more)[x] == (outer' + still)[x];
    }
  }

  lemma {:induction false} PassAccounted(c: Config, h: History, task: Task)
    requires Accounted(h) && Can(c, h, Passed(task))
    ensures Accounted(Step(c, h, Passed(task)))
  {
    var r, t := Step(c, h, Passed(task)), Next(c.mode, h);
    OneMoreFrame(h.stack, Reacting(task.reaction));
    SameFront(h, r, h.passed);
    assert r.passed == h.passed + [t] && r.passed[..|h.passed|] == h.passed;
    assert PushedByPassed(r, r.passed) == PushedByPassed(r, h.passed) + Pushes(task.reaction);
    assert StillToPush(r.stack) == StillToPush(h.stack) + Pushes(task.reaction);
    var more := Pushes(task.reaction);
    assert multiset(h.pushed) + StillToPush(r.stack) == (multiset(h.pushed) + StillToPush(h.stack)) + more;
    assert Pushes(h.outer) + PushedByPassed(r, r.passed) == (Pushes(h.outer) + PushedByPassed(h, h.passed)) + more;
  }

  lemma {:induction false} LeaveAccounted(c: Config, h: History, e: Entry)
    requires Accounted(h) && Can(c, h, e) && (e.Returned? || e.Served?)
    ensures Accounted(Step(c, h, e))
  {
    assert h.stack == Below(h) + [Top(h)];
    OneMoreFrame(Below(h), Top(h));
    SameFront(h, Step(c, h, e), h.passed);
  }

  /** The pushed tasks, with those that tasks under way have still to push, are the ones pushed from outside
      and the ones pushed by the tasks handed to the executor. */
  lemma {:induction false} PushesAreAccounted(c: Config, log: seq<Entry>)
    requires Legal(c, log)
    ensures Accounted(Run(c, log))
  {
    if log != [] {
      var h, e := Run(c, log[..|log| - 1]), log[|log| - 1];
      PushesAreAccounted(c, log[..|log| - 1]);
      match e
      case Called(call) => CallAccounted(c, h, call);
      case Passed(task) => PassAccounted(c, h, task);
      case _ => LeaveAccounted(c, h, e);
    }
  }
}
