/** Lazy connections: two single-shot timers on a discrete clock turn bursts of notifications into
    single calls of the slot. */
module SignalPostponer {
  import opened Wrappers

  /** The time a started timer is to go off at; None for an idle one. */
  type Timer = Option<nat>

  datatype Config = Config(delay: nat, patience: nat)
  datatype Timers = Timers(laziness: Timer, patience: Timer)

  const STOPPED := Timers(None, None)

  function Started(c: Config, t: Timers, now: nat): Timers {
    Timers(Some(now + c.delay), if t.laziness == None then Some(now + c.patience) else t.patience)
  }

  class SignalPostponer {
    var lazinessTimer: Timer
    var patienceTimer: Timer
    var delay: nat
    var patience: nat

    function View(): Timers
      reads this
    {
      Timers(lazinessTimer, patienceTimer)
    }

    function Settings(): Config
      reads this
    {
      Config(delay, patience)
    }

    constructor ()
      ensures View() == STOPPED && Settings() == Config(250, 1000)
    {
      lazinessTimer, patienceTimer, delay, patience := None, None, 250, 1000;
    }

    method SetDelay(d: nat)
      modifies this
      ensures View() == old(View()) && Settings() == old(Settings()).(delay := d)
    {
      delay := d;
    }

    method SetPatience(p: nat)
      modifies this
      ensures View() == old(View()) && Settings() == old(Settings()).(patience := p)
    {
      patience := p;
    }

    method Notify(now: nat)
      modifies this
      ensures View() == Started(Settings(), old(View()), now) && Settings() == old(Settings())
    {
      if lazinessTimer == None {
        patienceTimer := Some(now + patience);
      }
      lazinessTimer := Some(now + delay);
    }

    method Stop()
      modifies this
      ensures View() == STOPPED && Settings() == old(Settings())
    {
      lazinessTimer := None;
      patienceTimer := None;
    }

    /** A timeout: the timer is idle again, the slot is called, and then both timers are stopped. */
    method LazinessTimeout(now: nat) returns (fired: seq<Entry>)
      modifies this
      ensures fired == [Fired(now)] && View() == STOPPED && Settings() == old(Settings())
    {
      lazinessTimer := None;
      fired := [Fired(now)];
      Stop();
    }

    method PatienceTimeout(now: nat) returns (fired: seq<Entry>)
      modifies this
      ensures fired == [Fired(now)] && View() == STOPPED && Settings() == old(Settings())
    {
      patienceTimer := None;
      fired := [Fired(now)];
      Stop();
    }
  }

  /** lazy_connect: the postponer the signal is connected to. */
  method LazyConnect(delay: nat := 250, patience: nat := 1000) returns (postponer: SignalPostponer)
    ensures fresh(postponer) && postponer.View() == STOPPED && postponer.Settings() == Config(delay, patience)
  {
    postponer := new SignalPostponer();
    postponer.SetDelay(delay);
    postponer.SetPatience(patience);
  }

  // ----- timed runs -----

  /** What happened, in order. */
  datatype Entry = Notified(at: nat) | Fired(at: nat)

  datatype State = State(now: nat, timers: Timers, log: seq<Entry>)

  datatype Event = Notify | Tick | LazinessTimeout | PatienceTimeout

  predicate IsDue(t: Timer, now: nat) {
    t.Some? && t.value <= now
  }

  /** Timers go off in time: the clock does not advance past a due timer. A notification that comes at
      the very instant a timer is due may be handled before it or after it. */
  predicate Enabled(s: State, e: Event) {
    match e
    case Notify => true
    case Tick => !IsDue(s.timers.laziness, s.now) && !IsDue(s.timers.patience, s.now)
    case LazinessTimeout => IsDue(s.timers.laziness, s.now)
    case PatienceTimeout => IsDue(s.timers.patience, s.now)
  }

  function Step(c: Config, s: State, e: Event): State {
    match e
    case Notify => s.(timers := Started(c, s.timers, s.now), log := s.log + [Notified(s.now)])
    case Tick => s.(now := s.now + 1)
    case LazinessTimeout => s.(timers := STOPPED, log := s.log + [Fired(s.now)])
    case PatienceTimeout => s.(timers := STOPPED, log := s.log + [Fired(s.now)])
  }

  predicate Legal(c: Config, es: seq<Event>)
    decreases |es|, 0
  {
    es == [] || (Legal(c, es[..|es| - 1]) && Enabled(Run(c, es[..|es| - 1]), es[|es| - 1]))
  }

  function Run(c: Config, es: seq<Event>): State
    requires Legal(c, es)
    decreases |es|, 1
  {
    if es == [] then State(0, STOPPED, []) else Step(c, Run(c, es[..|es| - 1]), es[|es| - 1])
  }

  // ----- the log is what happened -----

  function Ticks(es: seq<Event>): nat {
    if es == [] then 0 else Ticks(es[..|es| - 1]) + (if es[|es| - 1].Tick? then 1 else 0)
  }

  /** Each notification at its time, and each timeout as a call at its time. */
  function Happened(es: seq<Event>): seq<Entry> {
    if es == [] then []
    else
      var before, now := Happened(es[..|es| - 1]), Ticks(es[..|es| - 1]);
      match es[|es| - 1]
      case Notify => before + [Notified(now)]
      case Tick => before
      case _ => before + [Fired(now)]
  }

  /** Every notification is on the log, every timeout makes one call, and nothing else does. */
  lemma {:induction false} LogIsWhatHappened(c: Config, es: seq<Event>)
    requires Legal(c, es)
    ensures Run(c, es).log == Happened(es) && Run(c, es).now == Ticks(es)
  {
    if es != [] {
      LogIsWhatHappened(c, es[..|es| - 1]);
    }
  }

  // ----- what is promised, said of the log alone -----

  /** The times of the notifications that came after the last call of the slot. */
  function Pending(log: seq<Entry>): seq<nat> {
    if log == [] || log[|log| - 1].Fired? then []
    else Pending(log[..|log| - 1]) + [log[|log| - 1].at]
  }

  /** When a burst is to be answered: `delay` after its last notification, but no later than `patience`
      after its first. */
  function Due(c: Config, burst: seq<nat>): nat
    requires burst != []
  {
    var patient, lazy := burst[0] + c.patience, burst[|burst| - 1] + c.delay;
    if patient < lazy then patient else lazy
  }

  ghost predicate AnswersBursts(c: Config, log: seq<Entry>) {
    forall i | 0 <= i < |log| && log[i].Fired? :: Pending(log[..i]) != [] && log[i].at == Due(c, Pending(log[..i]))
  }

  ghost predicate InTime(s: State) {
    && (forall i | 0 <= i < |s.log| :: s.log[i].at <= s.now)
    && (forall i, j | 0 <= i <= j < |s.log| :: s.log[i].at <= s.log[j].at)
  }

  /** Both timers are idle, or both are started for the burst that waits for its answer. */
  predicate TimersInv(c: Config, s: State) {
    var burst := Pending(s.log);
    if burst == [] then s.timers == STOPPED
    else s.timers == Timers(Some(burst[|burst| - 1] + c.delay), Some(burst[0] + c.patience)) && s.now <= Due(c, burst)
  }

  /** Pending is what its name says: the log since just after the last call of the slot. */
  lemma {:induction false} PendingIsTheBurst(log: seq<Entry>)
    ensures |Pending(log)| <= |log|
    ensures
      var k := |log| - |Pending(log)|;
      (k == 0 || log[k - 1].Fired?) && forall i | k <= i < |log| :: log[i] == Notified(Pending(log)[i - k])
  {
    if log != [] && log[|log| - 1].Notified? {
      PendingIsTheBurst(log[..|log| - 1]);
    }
  }

  lemma {:induction false} PendingAfter(log: seq<Entry>, x: Entry)
    ensures Pending(log + [x]) == if x.Fired? then [] else Pending(log) + [x.at]
  {
    assert (log + [x])[..|log|] == log;
  }

  lemma {:induction false} AnswersAfter(c: Config, log: seq<Entry>, x: Entry)
    requires AnswersBursts(c, log) && (x.Fired? ==> Pending(log) != [] && x.at == Due(c, Pending(log)))
    ensures AnswersBursts(c, log + [x])
  {
    assert (log + [x])[..|log|] == log;
    assert forall i | 0 <= i < |log| :: (log + [x])[..i] == log[..i];
  }

  lemma {:induction false} TimersStep(c: Config, s: State, e: Event)
    requires Enabled(s, e) && TimersInv(c, s)
    ensures TimersInv(c, Step(c, s, e))
  {
    if e.Notify? {
      NotifyKeepsTimers(c, s);
    } else if !e.Tick? {
      PendingAfter(s.log, Fired(s.now));
    }
  }

  lemma {:induction false} NotifyKeepsTimers(c: Config, s: State)
    requires TimersInv(c, s)
    ensures TimersInv(c, Step(c, s, Notify))
  {
    var burst := Pending(s.log);
    PendingAfter(s.log, Notified(s.now));
    assert (burst + [s.now])[|burst|] == s.now;
    assert burst != [] ==> (burst + [s.now])[0] == burst[0];
  }

  lemma {:induction false} CallIsDue(c: Config, s: State, e: Event)
    requires Enabled(s, e) && TimersInv(c, s) && (e.LazinessTimeout? || e.PatienceTimeout?)
    ensures Pending(s.log) != [] && s.now == Due(c, Pending(s.log))
  {
  }

  lemma {:induction false} InTimeStep(c: Config, s: State, e: Event)
    requires InTime(s)
    ensures InTime(Step(c, s, e))
  {
  }

  lemma {:induction false} AnswersStep(c: Config, s: State, e: Event)
    requires Enabled(s, e) && TimersInv(c, s) && AnswersBursts(c, s.log)
    ensures AnswersBursts(c, Step(c, s, e).log)
  {
    if e.Notify? {
      AnswersAfter(c, s.log, Notified(s.now));
    } else if !e.Tick? {
      CallIsDue(c, s, e);
      AnswersAfter(c, s.log, Fired(s.now));
    }
  }

  /** In every timed run each call of the slot answers exactly one burst of notifications, at
      min(first + patience, last + delay); both timers are active or idle together; and a burst that
      still waits has not waited past that time. */
  lemma {:induction false} BurstsAreAnswered(c: Config, es: seq<Event>)
    requires Legal(c, es)
    ensures AnswersBursts(c, Run(c, es).log) && InTime(Run(c, es)) && TimersInv(c, Run(c, es))
    ensures Run(c, es).timers.laziness.Some? <==> Run(c, es).timers.patience.Some?
  {
    if es != [] {
      BurstsAreAnswered(c, es[..|es| - 1]);
      TimersStep(c, Run(c, es[..|es| - 1]), es[|es| - 1]);
      InTimeStep(c, Run(c, es[..|es| - 1]), es[|es| - 1]);
      AnswersStep(c, Run(c, es[..|es| - 1]), es[|es| - 1]);
    }
  }

  /** A burst begins with its earliest notification. */
  lemma {:induction false} BurstBegins(s: State, k: nat, i: nat)
    requires InTime(s) && k <= |s.log| && |s.log[..k]| - |Pending(s.log[..k])| <= i < k
    ensures Pending(s.log[..k]) != [] && Pending(s.log[..k])[0] <= s.log[i].at
  {
    var log := s.log[..k];
    PendingIsTheBurst(log);
    var first := k - |Pending(log)|;
    assert log[first] == s.log[first] == Notified(Pending(log)[0]);
  }

  /** The first call after `i`, given a later one. */
  lemma {:induction false} NextCall(log: seq<Entry>, i: nat, k: nat) returns (j: nat)
    requires i < k < |log| && log[k].Fired? && log[i].Notified?
    ensures i < j <= k && log[j].Fired? && forall l | i <= l < j :: log[l].Notified?
  {
    j := i + 1;
    while log[j].Notified?
      invariant i < j <= k && forall l | i <= l < j :: log[l].Notified?
      decreases k - j
    {
      j := j + 1;
    }
  }

  lemma {:induction false} CallIsInTime(c: Config, s: State, i: nat, j: nat)
    requires AnswersBursts(c, s.log) && InTime(s)
    requires i < j < |s.log| && s.log[j].Fired? && forall l | i <= l < j :: s.log[l].Notified?
    ensures s.log[j].at <= s.log[i].at + c.patience
  {
    PendingIsTheBurst(s.log[..j]);
    var k := j - |Pending(s.log[..j])|;
    assert k > 0 ==> s.log[..j][k - 1] == s.log[k - 1];
    BurstBegins(s, j, i);
  }

  /** No notification is left without a later call: once the clock is past notification + patience, the
      call has been made, and it was made in that time. */
  lemma {:induction false} EveryNotificationIsAnswered(c: Config, es: seq<Event>, i: nat)
    requires Legal(c, es) && i < |Run(c, es).log| && Run(c, es).log[i].Notified?
    requires Run(c, es).log[i].at + c.patience < Run(c, es).now
    ensures IsAnswered(c, Run(c, es).log, i)
  {
    BurstsAreAnswered(c, es);
    AnswerOf(c, Run(c, es), i);
  }

  ghost predicate IsAnswered(c: Config, log: seq<Entry>, i: nat) {
    i < |log| && exists j :: i < j < |log| && log[j].Fired? && log[j].at <= log[i].at + c.patience
  }

  lemma {:induction false} AnswerOf(c: Config, s: State, i: nat)
    requires AnswersBursts(c, s.log) && InTime(s) && TimersInv(c, s)
    requires i < |s.log| && s.log[i].Notified? && s.log[i].at + c.patience < s.now
    ensures IsAnswered(c, s.log, i)
  {
    var k := LastCall(c, s, i);
    var j := NextCall(s.log, i, k);
    CallIsInTime(c, s, i, j);
  }

  /** A notification that old is not among those still waiting, so there is a call after it. */
  lemma {:induction false} LastCall(c: Config, s: State, i: nat) returns (k: nat)
    requires InTime(s) && TimersInv(c, s)
    requires i < |s.log| && s.log[i].Notified? && s.log[i].at + c.patience < s.now
    ensures i < k < |s.log| && s.log[k].Fired?
  {
    assert s.log[..|s.log|] == s.log;
    PendingIsTheBurst(s.log);
    var first := |s.log| - |Pending(s.log)|;
    if i >= first {
      BurstBegins(s, |s.log|, i);
      assert false;
    }
    k := first - 1;
  }

  /** Two calls are at least min(delay, patience) apart, however fast the notifications come. */
  lemma {:induction false} CallsAreSpaced(c: Config, es: seq<Event>, i: nat, j: nat)
    requires Legal(c, es) && i < j < |Run(c, es).log| && Run(c, es).log[i].Fired? && Run(c, es).log[j].Fired?
    ensures Run(c, es).log[i].at + (if c.delay < c.patience then c.delay else c.patience) <= Run(c, es).log[j].at
  {
    BurstsAreAnswered(c, es);
    LaterThan(c, Run(c, es), i, j);
  }

  /** Everything in the burst a call answers comes after the earlier call. */
  lemma {:induction false} LaterThan(c: Config, s: State, i: nat, j: nat)
    requires AnswersBursts(c, s.log) && InTime(s) && i < j < |s.log| && s.log[i].Fired? && s.log[j].Fired?
    ensures s.log[i].at + (if c.delay < c.patience then c.delay else c.patience) <= s.log[j].at
  {
    var log := s.log[..j];
    PendingIsTheBurst(log);
    var first := j - |Pending(log)|;
    assert log[i] == s.log[i];
    assert i < first;
    assert log[first] == s.log[first] && log[j - 1] == s.log[j - 1];
    assert s.log[i].at <= s.log[first].at == Pending(log)[0];
    assert s.log[i].at <= s.log[j - 1].at == Pending(log)[|Pending(log)| - 1];
  }

  /** The events lead from one state to another. */
  predicate Leads(c: Config, from: State, es: seq<Event>, goal: State)
    decreases |es|
  {
    if es == [] then from == goal else Enabled(from, es[0]) && Leads(c, Step(c, from, es[0]), es[1..], goal)
  }

  function Quiet(s: State): Event {
    if IsDue(s.timers.laziness, s.now) then LazinessTimeout
    else if IsDue(s.timers.patience, s.now) then PatienceTimeout
    else Tick
  }

  lemma {:induction false} QuietStep(c: Config, s: State, left: nat)
    requires Pending(s.log) != [] && TimersInv(c, s) && s.now + left == Due(c, Pending(s.log))
    ensures Enabled(s, Quiet(s)) && (Quiet(s) == Tick <==> left > 0)
    ensures Step(c, s, Quiet(s)) ==
      if left > 0 then s.(now := s.now + 1) else State(s.now, STOPPED, s.log + [Fired(s.now)])
  {
  }

  /** The events lead, without a notification, to the call that answers the waiting burst. */
  predicate EndsInCall(c: Config, s: State, more: seq<Event>) {
    && Notify !in more && Pending(s.log) != []
    && var due := Due(c, Pending(s.log));
       Leads(c, s, more, State(due, STOPPED, s.log + [Fired(due)]))
  }

  lemma {:induction false} Waiting(c: Config, s: State, left: nat) returns (more: seq<Event>)
    requires Pending(s.log) != [] && TimersInv(c, s) && s.now + left == Due(c, Pending(s.log))
    ensures EndsInCall(c, s, more)
    decreases left
  {
    QuietStep(c, s, left);
    if left == 0 {
      more := [Quiet(s)];
      assert more[1..] == [];
    } else {
      var later := s.(now := s.now + 1);
      var rest := Waiting(c, later, left - 1);
      more := [Tick] + rest;
      assert more[1..] == rest;
    }
  }

  /** A waiting burst is never stuck: from where any run stands, ticks and timeouts alone lead to the
      call of the slot at the due time. */
  lemma {:induction false} SilenceEndsTheBurst(c: Config, es: seq<Event>) returns (more: seq<Event>)
    requires Legal(c, es) && Pending(Run(c, es).log) != []
    ensures EndsInCall(c, Run(c, es), more)
  {
    BurstsAreAnswered(c, es);
    more := WaitingOut(c, Run(c, es));
  }

  lemma {:induction false} WaitingOut(c: Config, s: State) returns (more: seq<Event>)
    requires Pending(s.log) != [] && TimersInv(c, s)
    ensures EndsInCall(c, s, more)
  {
    more := Waiting(c, s, Due(c, Pending(s.log)) - s.now);
  }
}
