/** The throttled queue in front of an executor. Passing a task may run it, and anything it does, inside
    the call: push other tasks, clear the queue, finish itself or tasks passed earlier. */
module TasksQueue {
  import opened QueueRecord

  // ----- a bound on the work still to be done -----

  function Size(task: Task): nat
    decreases task
  {
    1 + SizeOfCalls(task.reaction)
  }

  function SizeOfCalls(calls: seq<Call>): nat
    decreases calls
  {
    if calls == [] then 0 else SizeOfCall(calls[0]) + SizeOfCalls(calls[1..])
  }

  function SizeOfCall(call: Call): nat
    decreases call
  {
    match call
    case Push(task) => 1 + Size(task)
    case _ => 1
  }

  function Work(tasks: seq<Task>): nat {
    if tasks == [] then 0 else Size(tasks[0]) + Work(tasks[1..])
  }

  lemma {:induction false} WorkOfLast(tasks: seq<Task>, task: Task)
    ensures Work(tasks + [task]) == Work(tasks) + Size(task)
  {
    if tasks == [] {
      assert [] + [task] == [task] && [task][1..] == [];
    } else {
      assert (tasks + [task])[1..] == tasks[1..] + [task];
      WorkOfLast(tasks[1..], task);
    }
  }

  /** The oldest of the waiting tasks, or the newest. */
  function EndOf(mode: Mode, tasks: seq<Task>): Task
    requires tasks != []
  {
    if mode == Fifo then tasks[0] else tasks[|tasks| - 1]
  }

  /** take_front or take_back. */
  method Take(mode: Mode, tasks: seq<Task>) returns (task: Task, rest: seq<Task>)
    requires tasks != []
    ensures |rest| == |tasks| - 1
    ensures if mode == Fifo then tasks == [task] + rest else tasks == rest + [task]
    ensures Work(tasks) == Work(rest) + Size(task)
  {
    var n := |tasks| - 1;
    if mode == Fifo {
      task, rest := tasks[0], tasks[1..];
    } else {
      task, rest := tasks[n], tasks[..n];
      assert tasks == rest + [task];
      WorkOfLast(rest, task);
    }
  }

  // ----- the queue -----

  lemma {:induction false} Longer<T>(a: seq<T>, b: seq<T>, c: seq<T>)
    requires a <= b <= c
    ensures a + [] <= c && a <= c
  {
    assert a + [] == a;
  }

  class Queue {
    var waitingTasks: seq<Task>
    var executingTasks: int
    const maxTasks: int
    const mode: Mode
    /** What has happened so far, and what that amounts to. */
    ghost var log: seq<Entry>
    ghost var history: History

    function Settings(): Config {
      Config(mode, maxTasks)
    }

    /** The waiting tasks are those of the waiting tickets, in their order; the counter counts the executing. */
    ghost predicate Holds(h: History)
      reads this
    {
      && |waitingTasks| == |h.waiting|
      && (forall i | 0 <= i < |h.waiting| :: h.waiting[i] < |h.pushed| && waitingTasks[i] == h.pushed[h.waiting[i]])
      && executingTasks == |h.executing|
    }

    ghost predicate Recorded()
      reads this
    {
      Legal(Settings(), log) && history == Run(Settings(), log)
    }

    ghost predicate Valid()
      reads this
    {
      Recorded() && Holds(history)
    }

    predicate IsSettled()
      reads this
    {
      waitingTasks == [] || executingTasks >= maxTasks
    }

    constructor (maxTasks: int, mode: Mode)
      ensures Valid() && log == [] && Settings() == Config(mode, maxTasks)
    {
      this.maxTasks, this.mode := maxTasks, mode;
      waitingTasks, executingTasks, log, history := [], 0, [], NO_HISTORY;
    }

    ghost method Record(e: Entry)
      requires Recorded() && Can(Settings(), history, e)
      modifies this`log, this`history
      ensures Recorded() && log == old(log) + [e] && history == Step(Settings(), old(history), e)
    {
      OneMore(Settings(), log, e);
      log := log + [e];
      history := Step(Settings(), history, e);
    }

    /** The record goes on from an earlier one, and what was under way then is under way again. */
    twostate predicate GoesOn(entries: seq<Entry>, stack: seq<Frame>, outer: seq<Call>)
      reads this
    {
      && old(log) + entries <= log && old(history.pushed) <= history.pushed
      && history.stack == stack && history.outer == outer
    }

    /** The call is on the record, and whoever made it has it behind him. */
    twostate predicate CallMade(call: Call)
      requires MayCall(old(history), call)
      reads this
    {
      GoesOn([Called(call)], Made(old(history), call).stack, Made(old(history), call).outer)
    }

    method Push(task: Task)
      requires Valid() && MayCall(history, Call.Push(task))
      modifies this
      ensures Valid() && IsSettled()
      ensures CallMade(Call.Push(task))
      ensures old(history.pushed) + [task] <= history.pushed
      ensures Work(waitingTasks) <= old(Work(waitingTasks)) + Size(task)
      decreases Work(waitingTasks) + Size(task), 3
    {
      WorkOfLast(waitingTasks, task);
      Enqueue(task);
      Serve();
    }

    method Enqueue(task: Task)
      requires Valid() && MayCall(history, Call.Push(task))
      modifies this`waitingTasks, this`log, this`history
      ensures Valid() && waitingTasks == old(waitingTasks) + [task]
      ensures log == old(log) + [Called(Call.Push(task))]
      ensures history == WithPush(Made(old(history), Call.Push(task)), task)
    {
      waitingTasks := waitingTasks + [task];
      Record(Called(Call.Push(task)));
    }

    method Clear()
      requires Valid() && MayCall(history, Call.Clear)
      modifies this
      ensures Valid() && waitingTasks == [] && executingTasks == old(executingTasks)
      ensures log == old(log) + [Called(Call.Clear)]
    {
      waitingTasks := [];
      Record(Called(Call.Clear));
    }

    /** What a push and a notification have in common. */
    method Serve()
      requires Valid() && history.stack != [] && Top(history).Serving?
      modifies this
      ensures Valid() && IsSettled()
      ensures GoesOn([], Below(old(history)), old(history.outer))
      ensures Work(waitingTasks) <= old(Work(waitingTasks))
      decreases Work(waitingTasks), 2
    {
      TryToFire();
      Record(Served);
    }

    method TryToFire()
      requires Valid() && history.stack != [] && Top(history).Serving?
      modifies this
      ensures Valid() && IsSettled()
      ensures GoesOn([], old(history.stack), old(history.outer))
      ensures Work(waitingTasks) <= old(Work(waitingTasks))
      decreases Work(waitingTasks), 1
    {
      while maxTasks > executingTasks && waitingTasks != []
        invariant Valid() && GoesOn([], old(history.stack), old(history.outer))
        invariant Work(waitingTasks) <= old(Work(waitingTasks))
        decreases Work(waitingTasks)
      {
        ghost var before, pushed := log, history.pushed;
        Fire();
        Longer(old(log), before, log);
        Longer(old(history.pushed), pushed, history.pushed);
      }
    }

    /** The queue's assertion holds: there is a task to take. The one handed over is the oldest or the newest
        of those waiting. */
    method Fire()
      requires Valid() && maxTasks > executingTasks && waitingTasks != []
      requires history.stack != [] && Top(history).Serving?
      modifies this
      ensures Valid() && Work(waitingTasks) < old(Work(waitingTasks))
      ensures GoesOn([Passed(EndOf(mode, old(waitingTasks)))], old(history.stack), old(history.outer))
      decreases Work(waitingTasks), 0
    {
      assert waitingTasks != [];
      var task;
      task, waitingTasks := Take(mode, waitingTasks);
      executingTasks := executingTasks + 1;
      PassTaskToExecutor(task);
    }

    /** The executor gets a task, and runs whatever it runs before it returns. */
    method PassTaskToExecutor(task: Task)
      requires Recorded() && Can(Settings(), history, Passed(task)) && Holds(Step(Settings(), history, Passed(task)))
      modifies this
      ensures Valid() && Work(waitingTasks) <= old(Work(waitingTasks)) + SizeOfCalls(task.reaction)
      ensures GoesOn([Passed(task)], old(history.stack), old(history.outer))
      decreases Work(waitingTasks) + SizeOfCalls(task.reaction), 7
    {
      Record(Passed(task));
      React(task.reaction);
      Record(Returned);
    }

    /** A notifier has been released; `which` tells whose. */
    method TaskFinished(ghost which: nat)
      requires Valid() && which < executingTasks && MayCall(history, Call.Finish(which))
      modifies this
      ensures Valid() && IsSettled()
      ensures CallMade(Call.Finish(which))
      ensures Work(waitingTasks) <= old(Work(waitingTasks))
      decreases Work(waitingTasks), 3
    {
      assert executingTasks > 0;
      CountDown(which);
      Serve();
    }

    method CountDown(ghost which: nat)
      requires Valid() && which < executingTasks && MayCall(history, Call.Finish(which))
      modifies this`executingTasks, this`log, this`history
      ensures Valid() && executingTasks == old(executingTasks) - 1
      ensures log == old(log) + [Called(Call.Finish(which))]
      ensures history == WithFinish(Made(old(history), Call.Finish(which)), which)
    {
      executingTasks := executingTasks - 1;
      Record(Called(Call.Finish(which)));
    }

    /** One call on the queue; a notification of a task that is not executing does not exist. */
    method Make(call: Call)
      requires Valid() && MayCall(history, call)
      modifies this
      ensures Valid()
      ensures CallMade(call)
      ensures Work(waitingTasks) < old(Work(waitingTasks)) + SizeOfCall(call)
      decreases Work(waitingTasks) + SizeOfCall(call), 4
    {
      match call {
        case Push(task) => Push(task);
        case Clear => Clear();
        case Finish(which) =>
          if which < executingTasks {
            TaskFinished(which);
          } else {
            Record(Called(call));
          }
      }
    }

    /** Calls from outside, one after the other. */
    method MakeAll(calls: seq<Call>)
      requires Valid() && history.stack == [] && history.outer == []
      modifies this
      ensures Valid() && history.stack == [] && history.outer == calls
    {
      for i := 0 to |calls|
        invariant Valid() && history.stack == [] && history.outer == calls[..i]
      {
        assert calls[..i + 1] == calls[..i] + [calls[i]];
        MakeFromOutside(calls[i]);
      }
      assert calls[..|calls|] == calls;
    }

    method MakeFromOutside(call: Call)
      requires Valid() && history.stack == []
      modifies this
      ensures Valid() && history.stack == [] && history.outer == old(history.outer) + [call]
    {
      Make(call);
    }

    /** The calls of a task that is being passed, one after the other. */
    method React(calls: seq<Call>)
      requires Valid() && history.stack != [] && Top(history) == Reacting(calls)
      modifies this
      ensures Valid() && Work(waitingTasks) <= old(Work(waitingTasks)) + SizeOfCalls(calls)
      ensures GoesOn([], Below(old(history)) + [Reacting([])], old(history.outer))
      decreases Work(waitingTasks) + SizeOfCalls(calls), 6
    {
      if calls != [] {
        assert SizeOfCalls(calls) == SizeOfCall(calls[0]) + SizeOfCalls(calls[1..]);
        MakeNext(calls);
        ghost var before, pushed := log, history.pushed;
        React(calls[1..]);
        Longer(old(log), before, log);
        Longer(old(history.pushed), pushed, history.pushed);
      } else {
        assert history.stack == Below(history) + [Reacting([])];
      }
    }

    /** The first of the calls that a task being passed is still to make. */
    method MakeNext(calls: seq<Call>)
      requires Valid() && history.stack != [] && Top(history) == Reacting(calls) && calls != []
      modifies this
      ensures Valid() && Work(waitingTasks) < old(Work(waitingTasks)) + SizeOfCall(calls[0])
      ensures history.stack != [] && Top(history) == Reacting(calls[1..]) && Below(history) == Below(old(history))
      ensures history.outer == old(history.outer)
      ensures old(log) <= log && old(history.pushed) <= history.pushed
      decreases Work(waitingTasks) + SizeOfCall(calls[0]), 5
    {
      Make(calls[0]);
    }
  }

  /** Any sequence of calls on a new queue, whatever the tasks do when they are passed: the calls end, and
      the record has all of them and nothing left under way. */
  method AnyRun(c: Config, calls: seq<Call>) returns (waiting: seq<Task>, executing: nat, ghost log: seq<Entry>)
    ensures Legal(c, log) && Run(c, log).outer == calls && Run(c, log).stack == []
    ensures |waiting| == |Run(c, log).waiting| && executing == |Run(c, log).executing|
    ensures forall i | 0 <= i < |waiting| ::
      Run(c, log).waiting[i] < |Run(c, log).pushed| && waiting[i] == Run(c, log).pushed[Run(c, log).waiting[i]]
    ensures waiting == [] || executing >= c.maxTasks
    ensures executing == 0 || executing <= c.maxTasks
  {
    var queue := new Queue(c.maxTasks, c.mode);
    queue.MakeAll(calls);
    SoundInEveryRun(c, queue.log);
    waiting, executing, log := queue.waitingTasks, queue.executingTasks, queue.log;
  }
}
