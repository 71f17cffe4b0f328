/** The bounded blocking queue between producer and consumer threads. A critical section is one atomic
    step; a thread that waits simply does not take its step yet. */
module TsQueue {
  import opened Wrappers

  datatype Queue<T> = Queue(items: seq<T>, limit: nat, stopped: bool)

  /** What a producer waits for. No limit is written 0. */
  predicate HasRoom<T>(q: Queue<T>) {
    q.limit == 0 || |q.items| < q.limit
  }

  /** What a consumer waits for. */
  predicate Ready<T>(q: Queue<T>) {
    q.stopped || q.items != []
  }

  function Appended<T>(q: Queue<T>, x: T): Queue<T> {
    q.(items := q.items + [x])
  }

  function Taken<T>(q: Queue<T>): Queue<T> {
    if q.items == [] then q else q.(items := q.items[1..])
  }

  function Head<T>(q: Queue<T>): Option<T> {
    if q.items == [] then None else Some(q.items[0])
  }

  class TS_Queue<T> {
    const maxSize: nat
    var queue: seq<T>
    var stopped: bool

    function View(): Queue<T>
      reads this
    {
      Queue(queue, maxSize, stopped)
    }

    constructor (max: nat)
      ensures View() == Queue([], max, false)
    {
      maxSize, queue, stopped := max, [], false;
    }

    /** The test in front of the lock in push: the item is silently given up once stopped. */
    method MayEnter() returns (enters: bool)
      ensures enters == !stopped
    {
      enters := !stopped;
    }

    /** The locked part of push, once there is room. */
    method Push(item: T)
      requires HasRoom(View())
      modifies this
      ensures View() == Appended(old(View()), item)
    {
      queue := queue + [item];
    }

    /** A push nothing comes between. */
    method PushAtOnce(item: T)
      requires HasRoom(View())
      modifies this
      ensures View() == if old(stopped) then old(View()) else Appended(old(View()), item)
    {
      var enters := MayEnter();
      if enters {
        Push(item);
      }
    }

    /** The locked part of pop, once the wait is over. */
    method Pop() returns (result: Option<T>)
      requires Ready(View())
      modifies this
      ensures View() == Taken(old(View())) && result == Head(old(View()))
    {
      result := None;
      if queue != [] {
        result := Some(queue[0]);
        queue := queue[1..];
      }
    }

    /** pop_for after its wait, which ended with data, a stop or neither. */
    method PopFor() returns (result: Option<T>)
      modifies this
      ensures View() == Taken(old(View())) && result == Head(old(View()))
    {
      var status := stopped || queue != [];
      result := None;
      if status && queue != [] {
        result := Some(queue[0]);
        queue := queue[1..];
      }
    }

    method Clear()
      modifies this
      ensures View() == old(View()).(items := [])
    {
      queue := [];
    }

    method Stop()
      modifies this
      ensures View() == old(View()).(stopped := true)
    {
      stopped := true;
    }
  }

  // ----- runs -----

  /** All items ever pushed, what became of those that left the queue (popped or cleared), and the
      answers the consumers got. */
  datatype History<T> = History(pushed: seq<T>, fates: seq<bool>, answers: seq<Option<T>>)

  /** `entered` are the producers that have found the queue not stopped and have not pushed yet. */
  datatype State<T> = State(queue: Queue<T>, entered: map<nat, T>, history: History<T>)

  datatype Event<T> =
    | Enter(thread: nat, item: T)
    | Push(thread: nat)
    | Pop
    | PopFor
    | Clear
    | Stop

  predicate Enabled<T(==)>(s: State<T>, e: Event<T>) {
    match e
    case Enter(t, _) => t !in s.entered
    case Push(t) => t in s.entered && HasRoom(s.queue)
    case Pop => Ready(s.queue)
    case _ => true
  }

  function Answered<T>(s: State<T>): State<T> {
    s.(queue := Taken(s.queue),
       history := s.history.(answers := s.history.answers + [Head(s.queue)],
                             fates := if s.queue.items == [] then s.history.fates else s.history.fates + [true]))
  }

  function Cleared(n: nat): (r: seq<bool>)
    ensures |r| == n && forall i | 0 <= i < n :: !r[i]
  {
    if n == 0 then [] else Cleared(n - 1) + [false]
  }

  function Step<T>(s: State<T>, e: Event<T>): State<T>
    requires Enabled(s, e)
  {
    match e
    case Enter(t, x) => if s.queue.stopped then s else s.(entered := s.entered[t := x])
    case Push(t) =>
      s.(queue := Appended(s.queue, s.entered[t]), entered := s.entered - {t},
         history := s.history.(pushed := s.history.pushed + [s.entered[t]]))
    case Pop => Answered(s)
    case PopFor => Answered(s)
    case Clear =>
      s.(queue := s.queue.(items := []),
         history := s.history.(fates := s.history.fates + Cleared(|s.queue.items|)))
    case Stop => s.(queue := s.queue.(stopped := true))
  }

  function Initial<T>(limit: nat): State<T> {
    State(Queue([], limit, false), map[], History([], [], []))
  }

  predicate Legal<T(==)>(limit: nat, es: seq<Event<T>>)
    decreases |es|, 0
  {
    es == [] || (Legal(limit, es[..|es| - 1]) && Enabled(Run(limit, es[..|es| - 1]), es[|es| - 1]))
  }

  function Run<T>(limit: nat, es: seq<Event<T>>): State<T>
    requires Legal(limit, es)
    decreases |es|, 1
  {
    if es == [] then Initial(limit) else Step(Run(limit, es[..|es| - 1]), es[|es| - 1])
  }

  // ----- what every run keeps -----

  /** The items whose mark is set, in order. */
  function Marked<T>(xs: seq<T>, marks: seq<bool>): seq<T>
    requires |xs| == |marks|
  {
    if xs == [] then []
    else Marked(xs[..|xs| - 1], marks[..|xs| - 1]) + (if marks[|xs| - 1] then [xs[|xs| - 1]] else [])
  }

  function Values<T>(answers: seq<Option<T>>): seq<T> {
    if answers == [] then []
    else Values(answers[..|answers| - 1]) + (match answers[|answers| - 1] case Some(x) => [x] case None => [])
  }

  /** The queue is what is left of the pushed items; of those that left it, the consumers got the ones
      not cleared, in push order. */
  ghost predicate Inv<T>(s: State<T>) {
    var h := s.history;
    && (s.queue.limit == 0 || |s.queue.items| <= s.queue.limit)
    && |h.fates| <= |h.pushed| && h.pushed[|h.fates|..] == s.queue.items
    && Values(h.answers) == Marked(h.pushed[..|h.fates|], h.fates)
  }

  lemma {:induction false} MarkedCleared<T>(xs: seq<T>, marks: seq<bool>, more: seq<T>)
    requires |xs| == |marks|
    ensures Marked(xs + more, marks + Cleared(|more|)) == Marked(xs, marks)
    decreases |more|
  {
    if more == [] {
      assert xs + more == xs && marks + Cleared(0) == marks;
    } else {
      var front, x := more[..|more| - 1], more[|more| - 1];
      MarkedCleared(xs, marks, front);
      assert xs + more == xs + front + [x];
      assert marks + Cleared(|more|) == marks + Cleared(|front|) + [false];
    }
  }

  lemma {:induction false} AnsweredKeeps<T>(s: State<T>)
    requires Inv(s)
    ensures Inv(Answered(s))
  {
    var h := s.history;
    if s.queue.items != [] {
      var n := |h.fates|;
      assert h.pushed[n] == s.queue.items[0];
      assert h.pushed[..n + 1] == h.pushed[..n] + [h.pushed[n]];
      assert h.pushed[n + 1..] == h.pushed[n..][1..];
    }
  }

  lemma {:induction false} ClearKeeps<T>(s: State<T>)
    requires Inv(s)
    ensures Inv(Step(s, Clear))
  {
    var h := s.history;
    MarkedCleared(h.pushed[..|h.fates|], h.fates, s.queue.items);
    assert h.pushed[..|h.fates|] + s.queue.items == h.pushed;
    assert h.pushed[..|h.pushed|] == h.pushed;
  }

  lemma {:induction false} PushKeeps<T>(s: State<T>, t: nat)
    requires Inv(s) && Enabled(s, Push(t))
    ensures Inv(Step(s, Push(t)))
  {
    var h, x := s.history, s.entered[t];
    assert (h.pushed + [x])[|h.fates|..] == h.pushed[|h.fates|..] + [x];
    assert (h.pushed + [x])[..|h.fates|] == h.pushed[..|h.fates|];
  }

  lemma {:induction false} StepKeeps<T>(s: State<T>, e: Event<T>)
    requires Inv(s) && Enabled(s, e)
    ensures Inv(Step(s, e))
  {
    match e
    case Push(t) => PushKeeps(s, t);
    case Pop => AnsweredKeeps(s);
    case PopFor => AnsweredKeeps(s);
    case Clear => ClearKeeps(s);
    case _ =>
  }

  /** The queue never exceeds its limit, holds the newest of the pushed items, and consumers get the
      others in push order, save those that were cleared. */
  lemma {:induction false} FifoInEveryRun<T>(limit: nat, es: seq<Event<T>>)
    requires Legal(limit, es)
    ensures Inv(Run(limit, es)) && Run(limit, es).queue.limit == limit
  {
    if es != [] {
      FifoInEveryRun(limit, es[..|es| - 1]);
      StepKeeps(Run(limit, es[..|es| - 1]), es[|es| - 1]);
    }
  }

  lemma {:induction false} AllMarked<T>(xs: seq<T>, marks: seq<bool>)
    requires |xs| == |marks| && false !in marks
    ensures Marked(xs, marks) == xs
  {
    if xs != [] {
      AllMarked(xs[..|xs| - 1], marks[..|xs| - 1]);
    }
  }

  lemma {:induction false} NoClearNoLoss<T>(limit: nat, es: seq<Event<T>>)
    requires Legal(limit, es) && Clear !in es
    ensures false !in Run(limit, es).history.fates
  {
    if es != [] {
      NoClearNoLoss(limit, es[..|es| - 1]);
      assert es[|es| - 1] != Clear;
    }
  }

  /** Without clear, what was popped followed by what is queued is what was pushed. */
  lemma {:induction false} PoppedThenQueued<T>(limit: nat, es: seq<Event<T>>)
    requires Legal(limit, es) && Clear !in es
    ensures Values(Run(limit, es).history.answers) + Run(limit, es).queue.items == Run(limit, es).history.pushed
  {
    FifoInEveryRun(limit, es);
    NoClearNoLoss(limit, es);
    var h := Run(limit, es).history;
    AllMarked(h.pushed[..|h.fates|], h.fates);
    assert h.pushed[..|h.fates|] + h.pushed[|h.fates|..] == h.pushed;
  }

  /** Clearing empties the queue: exactly the items that were in it are marked as never to be delivered. */
  lemma {:induction false} ClearedAreLost<T>(limit: nat, es: seq<Event<T>>)
    requires Legal(limit, es)
    ensures var s, r := Run(limit, es), Step(Run(limit, es), Clear);
      && r.queue.items == [] && r.history.pushed == s.history.pushed && r.history.answers == s.history.answers
      && |r.history.fates| == |r.history.pushed| && s.history.fates <= r.history.fates
      && s.history.pushed[|s.history.fates|..] == s.queue.items
      && forall i | |s.history.fates| <= i < |r.history.fates| :: !r.history.fates[i]
  {
    FifoInEveryRun(limit, es);
  }

  /** pop answers with nothing only when the queue is stopped and drained, and then it always does. */
  lemma {:induction false} EmptyAnswer<T>(s: State<T>)
    requires Enabled(s, Pop)
    ensures
      var answers := Step(s, Pop).history.answers;
      answers[|answers| - 1] == None <==> s.queue.stopped && s.queue.items == []
  {
  }

  /** A producer inside push waits only for room: while the queue is as full as it may be. */
  lemma {:induction false} ProducerWaitsWhenFull<T>(limit: nat, es: seq<Event<T>>, t: nat)
    requires Legal(limit, es) && t in Run(limit, es).entered
    ensures Enabled(Run(limit, es), Push(t)) <==> !(limit > 0 && |Run(limit, es).queue.items| == limit)
  {
    FifoInEveryRun(limit, es);
  }

  /** A consumer inside pop waits only while the queue is empty and not stopped. */
  lemma {:induction false} ConsumerWaitsWhenEmpty<T>(limit: nat, es: seq<Event<T>>)
    requires Legal(limit, es)
    ensures Enabled(Run(limit, es), Pop) <==> Run(limit, es).queue.items != [] || Stop in es
  {
    StoppedIff(limit, es);
  }

  lemma {:induction false} StoppedIff<T>(limit: nat, es: seq<Event<T>>)
    requires Legal(limit, es)
    ensures Run(limit, es).queue.stopped <==> Stop in es
  {
    if es != [] {
      StoppedIff(limit, es[..|es| - 1]);
      assert es == es[..|es| - 1] + [es[|es| - 1]];
    }
  }

  /** The items pushed: each push puts in what its producer came with, if it came before the stop. */
  function Offered<T(==)>(es: seq<Event<T>>, t: nat): Option<T> {
    if es == [] then None
    else
      match es[|es| - 1]
      case Enter(u, x) => if u == t then (if Stop in es then None else Some(x)) else Offered(es[..|es| - 1], t)
      case Push(u) => if u == t then None else Offered(es[..|es| - 1], t)
      case _ => Offered(es[..|es| - 1], t)
  }

  function PushedItems<T(==)>(es: seq<Event<T>>): seq<T> {
    if es == [] then []
    else
      var before := PushedItems(es[..|es| - 1]);
      match es[|es| - 1]
      case Push(t) =>
        (match Offered(es[..|es| - 1], t)
         case Some(x) => before + [x]
         case None => before)
      case _ => before
  }

  /** What is in push order is what the producers came with, in the order of their pushes. */
  lemma {:induction false} PushedIsOffered<T>(limit: nat, es: seq<Event<T>>)
    requires Legal(limit, es)
    ensures Run(limit, es).history.pushed == PushedItems(es)
    ensures forall t :: t in Run(limit, es).entered <==> Offered(es, t).Some?
    ensures forall t | t in Run(limit, es).entered :: Offered(es, t) == Some(Run(limit, es).entered[t])
  {
    if es != [] {
      PushedIsOffered(limit, es[..|es| - 1]);
      StoppedIff(limit, es[..|es| - 1]);
      assert es == es[..|es| - 1] + [es[|es| - 1]];
    }
  }
}
