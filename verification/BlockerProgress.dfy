/** What happens to a blocked connection is what its log says, its locker lives as long as someone holds it, and once
    nobody does, it is unlocked in time and whoever asked meanwhile is answered by a call. */
module BlockerProgress {
  import opened Wrappers
  import opened SignalBlocker

  // ----- the log and the clock -----

  function Ticks(es: seq<Event>): nat {
    if es == [] then 0 else Ticks(es[..|es| - 1]) + (if es[|es| - 1].Tick? then 1 else 0)
  }

  /** The times at which somebody notified. */
  function Notifications(es: seq<Event>): seq<nat> {
    if es == [] then []
    else Notifications(es[..|es| - 1]) + (if es[|es| - 1].Notify? then [Ticks(es[..|es| - 1])] else [])
  }

  function NotifiedAt(log: seq<Entry>): seq<nat> {
    if log == [] then []
    else NotifiedAt(log[..|log| - 1]) + (if log[|log| - 1].Notified? then [log[|log| - 1].at] else [])
  }

  lemma {:induction false} NotifiedOneMore(log: seq<Entry>, x: Entry)
    ensures NotifiedAt(log + [x]) == NotifiedAt(log) + (if x.Notified? then [x.at] else [])
  {
    assert (log + [x])[..|log|] == log;
  }

  lemma {:induction false} TryFireNotifiesNobody(s: State)
    ensures NotifiedAt(TriedToFire(s).log) == NotifiedAt(s.log) && TriedToFire(s).now == s.now
  {
    NotifiedOneMore(s.log, Fired(s.made, s.now));
    assert NotifiedAt(s.log) + [] == NotifiedAt(s.log);
  }

  lemma {:induction false} LettingGoNotifiesNobody(block: nat, s: State, l: nat, queued: bool)
    requires l in s.lockers && s.lockers[l] > 0
    ensures NotifiedAt(LetGo(block, s, l, queued).log) == NotifiedAt(s.log) && LetGo(block, s, l, queued).now == s.now
  {
    NotifiedOneMore(s.log, Destroyed(l, s.now));
    assert NotifiedAt(s.log) + [] == NotifiedAt(s.log);
  }

  lemma {:induction false} NotifyNotifiesOnce(s: State)
    ensures NotifiedAt(WasNotified(s).log) == NotifiedAt(s.log) + [s.now] && WasNotified(s).now == s.now
  {
    NotifiedOneMore(s.log, Notified(s.now));
    TryFireNotifiesNobody(s.(dirty := true, log := s.log + [Notified(s.now)]));
  }

  lemma {:induction false} TimeoutNotifiesNobody(s: State)
    ensures NotifiedAt(TimedOut(s).log) == NotifiedAt(s.log) && TimedOut(s).now == s.now
  {
    NotifiedOneMore(s.log, Unlocked(s.now));
    TryFireNotifiesNobody(s.(timer := None, locked := false, log := s.log + [Unlocked(s.now)]));
    assert NotifiedAt(s.log) + [] == NotifiedAt(s.log);
  }

  lemma {:induction false} NotifiedStep(block: nat, s: State, e: Event)
    requires Enabled(s, e)
    ensures NotifiedAt(Step(block, s, e).log) == NotifiedAt(s.log) + (if e.Notify? then [s.now] else [])
    ensures Step(block, s, e).now == s.now + (if e.Tick? then 1 else 0)
  {
    assert NotifiedAt(s.log) + [] == NotifiedAt(s.log);
    match e
    case Notify => NotifyNotifiesOnce(s);
    case Timeout => TimeoutNotifiesNobody(s);
    case EndEmission(queued) =>
      var front, l := s.emitting[..|s.emitting| - 1], s.emitting[|s.emitting| - 1];
      if l in s.lockers && s.lockers[l] > 0 {
        LettingGoNotifiesNobody(block, s.(emitting := front), l, queued);
      }
    case DropLocker(l, queued) => LettingGoNotifiesNobody(block, s, l, queued);
    case _ =>
  }

  /** Every notification is on the log with its time, and no other. */
  lemma {:induction false} EveryNotificationIsLogged(block: nat, es: seq<Event>)
    requires Legal(block, es)
    ensures NotifiedAt(Run(block, es).log) == Notifications(es) && Run(block, es).now == Ticks(es)
  {
    if es != [] {
      EveryNotificationIsLogged(block, es[..|es| - 1]);
      NotifiedStep(block, Run(block, es[..|es| - 1]), es[|es| - 1]);
    }
  }

  // ----- the holders of the locker -----

  /** One holder with each call of the slot, one more with each copy, one less whenever someone lets go. */
  function Holders(block: nat, es: seq<Event>): int
    requires Legal(block, es)
  {
    if es == [] then 0
    else
      var front := es[..|es| - 1];
      match es[|es| - 1]
      case CopyLocker(_) => Holders(block, front) + 1
      case DropLocker(_, _) => Holders(block, front) - 1
      case EndEmission(_) => Holders(block, front) - 1
      case _ => if Run(block, es).made > Run(block, front).made then 1 else Holders(block, front)
  }

  ghost predicate HeldBy(s: State, n: int) {
    if s.lockers == map[] then n == 0 else forall l | l in s.lockers :: s.lockers[l] == n
  }

  lemma {:induction false} HolderLetsGo(block: nat, s: State, l: nat, queued: bool, n: int)
    requires PhaseInv(block, s) && HeldBy(s, n) && l in s.lockers
    ensures HeldBy(LetGo(block, s, l, queued), n - 1)
  {
    assert s.lockers == map[l := s.lockers[l]];
    assert s.lockers[l] == n;
    assert s.lockers - {l} == map[];
  }

  lemma {:induction false} HoldersStep(block: nat, s: State, e: Event, n: int)
    requires Enabled(s, e) && PhaseInv(block, s) && HeldBy(s, n)
    ensures HeldBy(Step(block, s, e),
      match e
      case CopyLocker(_) => n + 1
      case DropLocker(_, _) => n - 1
      case EndEmission(_) => n - 1
      case _ => if Step(block, s, e).made > s.made then 1 else n)
  {
    match e
    case DropLocker(l, queued) => HolderLetsGo(block, s, l, queued, n);
    case EndEmission(queued) =>
      var front, l := s.emitting[..|s.emitting| - 1], s.emitting[|s.emitting| - 1];
      HolderLetsGo(block, s.(emitting := front), l, queued, n);
    case CopyLocker(l) => assert l in Step(block, s, e).lockers;
    case Notify => TriedToFireHolds(s.(dirty := true, log := s.log + [Notified(s.now)]), n);
    case Timeout => TriedToFireHolds(s.(timer := None, locked := false, log := s.log + [Unlocked(s.now)]), n);
    case _ =>
  }

  lemma {:induction false} TriedToFireHolds(s: State, n: int)
    requires HeldBy(s, n) && (s.locked || s.lockers == map[])
    ensures HeldBy(TriedToFire(s), if TriedToFire(s).made > s.made then 1 else n)
  {
    assert s.made in TriedToFire(s).lockers || TriedToFire(s) == s;
  }

  /** The locker is alive exactly as long as someone holds it: the emission that made it, or whoever copied it. */
  lemma {:induction false} LockerLivesWhileHeld(block: nat, es: seq<Event>)
    requires Legal(block, es)
    ensures HeldBy(Run(block, es), Holders(block, es))
    ensures Run(block, es).lockers != map[] <==> Holders(block, es) > 0
  {
    InvHolds(block, es);
    if es != [] {
      InvHolds(block, es[..|es| - 1]);
      LockerLivesWhileHeld(block, es[..|es| - 1]);
      HoldersStep(block, Run(block, es[..|es| - 1]), es[|es| - 1], Holders(block, es[..|es| - 1]));
    }
  }

  // ----- the way to the next call -----

  /** A running timer goes off within the block time. */
  lemma {:induction false} TimerIsNear(block: nat, es: seq<Event>)
    requires Legal(block, es)
    ensures HasNearTimer(block, Run(block, es))
  {
    if es != [] {
      TimerIsNear(block, es[..|es| - 1]);
      NearStep(block, Run(block, es[..|es| - 1]), es[|es| - 1]);
    }
  }

  predicate HasNearTimer(block: nat, s: State) {
    s.timer.Some? ==> s.timer.value <= s.now + block
  }

  lemma {:induction false} NearStep(block: nat, s: State, e: Event)
    requires Enabled(s, e) && HasNearTimer(block, s)
    ensures HasNearTimer(block, Step(block, s, e))
  {
    match e
    case DropLocker(l, queued) => NearLetGo(block, s, l, queued);
    case EndEmission(queued) =>
      var front, l := s.emitting[..|s.emitting| - 1], s.emitting[|s.emitting| - 1];
      if l in s.lockers && s.lockers[l] > 0 {
        NearLetGo(block, s.(emitting := front), l, queued);
      }
    case _ =>
  }

  lemma {:induction false} NearLetGo(block: nat, s: State, l: nat, queued: bool)
    requires l in s.lockers && s.lockers[l] > 0 && HasNearTimer(block, s)
    ensures HasNearTimer(block, LetGo(block, s, l, queued))
  {
  }

  /** Nobody notifies or copies the locker: emissions end, holders let go, and time goes by. */
  predicate IsCalm(e: Event) {
    !e.Notify? && !e.CopyLocker?
  }

  function NextCalm(s: State, l: nat): Event {
    if s.emitting != [] then EndEmission(false)
    else if s.lockers != map[] then DropLocker(l, false)
    else if s.starts > 0 then StartTimer
    else if s.timer.Some? && s.timer.value <= s.now then Timeout
    else Tick
  }

  /** How far the blocker is from being unlocked: holders first, then the start of the timer, then its time. */
  function Distance(block: nat, s: State, l: nat): nat {
    if l in s.lockers then s.lockers[l] + block + 2
    else if s.starts > 0 then block + 2
    else if s.timer.Some? then (if s.timer.value > s.now then s.timer.value - s.now else 0) + 1
    else 0
  }

  function LockerOf(s: State): nat {
    if PhaseOf(s.log).Held? then PhaseOf(s.log).locker else 0
  }

  /** From a locked state to the end of the lock, and to the call of the slot if somebody asked for one. */
  ghost predicate Answered(s: State, r: State) {
    && |r.log| > |s.log| && r.log[..|s.log|] == s.log
    && if Waiting(s.log) then r.log[|r.log| - 1].Fired? else r.log[|r.log| - 1].Unlocked? && !r.locked
  }

  lemma {:induction false} OneMoreCalm(block: nat, es: seq<Event>, e: Event)
    requires Legal(block, es) && Enabled(Run(block, es), e)
    ensures Legal(block, es + [e]) && Run(block, es + [e]) == Step(block, Run(block, es), e)
  {
    assert (es + [e])[..|es|] == es;
  }

  /** No later than this the blocker can be unlocked. */
  function Deadline(block: nat, s: State): nat {
    if s.timer.Some? then (if s.timer.value > s.now then s.timer.value else s.now) else s.now + block
  }

  /** The last step. */
  lemma {:induction false} TimeoutAnswers(block: nat, s: State)
    requires s.locked && Enabled(s, Timeout) && s.dirty == Waiting(s.log)
    ensures Answered(s, TimedOut(s)) && TimedOut(s).now == s.now
  {
    var t := s.(timer := None, locked := false, log := s.log + [Unlocked(s.now)]);
    assert TimedOut(s) == TriedToFire(t);
    assert t.log[..|s.log|] == s.log;
  }

  /** A step before it: the blocker comes nearer to being unlocked, and not later. */
  ghost predicate Nearer(block: nat, s: State, r: State) {
    && r.locked && Distance(block, r, LockerOf(r)) < Distance(block, s, LockerOf(s))
    && Deadline(block, r) <= Deadline(block, s) && r.now <= Deadline(block, s)
    && (r.log == s.log || r.log == s.log + [Destroyed(LockerOf(s), s.now)])
  }

  lemma {:induction false} LettingGoIsNearer(block: nat, s: State, emitting: seq<nat>)
    requires PhaseInv(block, s) && PhaseOf(s.log).Held?
    ensures LockerOf(s) in s.lockers && s.lockers[LockerOf(s)] > 0
    ensures Nearer(block, s, LetGo(block, s.(emitting := emitting), LockerOf(s), false))
  {
    var l := LockerOf(s);
    Extended(s.log, Destroyed(l, s.now));
    assert l !in s.lockers - {l};
  }

  lemma {:induction false} CalmStep(block: nat, s: State)
    requires PhaseInv(block, s) && s.locked && !NextCalm(s, LockerOf(s)).Timeout?
    ensures Enabled(s, NextCalm(s, LockerOf(s))) && Nearer(block, s, Step(block, s, NextCalm(s, LockerOf(s))))
  {
    if PhaseOf(s.log).Held? {
      if s.emitting == [] {
        LettingGoIsNearer(block, s, []);
      } else {
        LettingGoIsNearer(block, s, s.emitting[..|s.emitting| - 1]);
      }
    }
  }

  /** The lock has come to its end, in time. */
  ghost predicate InTimeAnswered(block: nat, s: State, r: State) {
    Answered(s, r) && r.now <= Deadline(block, s)
  }

  lemma {:induction false} AnsweredLater(block: nat, s: State, t: State, r: State)
    requires Nearer(block, s, t) && InTimeAnswered(block, t, r)
    ensures InTimeAnswered(block, s, r)
  {
    Extended(s.log, Destroyed(LockerOf(s), s.now));
    assert r.log[..|s.log|] == r.log[..|t.log|][..|s.log|];
  }

  ghost predicate CalmFrom(n: nat, all: seq<Event>) {
    forall i | n <= i < |all| :: IsCalm(all[i])
  }

  /** From any reachable state in which the blocker is locked: once emissions end and holders let go, it is unlocked
      within the block time, and if somebody has notified meanwhile, the slot is called. */
  lemma {:induction false} LockComesToItsEnd(block: nat, es: seq<Event>) returns (all: seq<Event>)
    requires Legal(block, es) && Run(block, es).locked
    ensures Legal(block, all) && es <= all && CalmFrom(|es|, all)
    ensures Answered(Run(block, es), Run(block, all)) && Run(block, all).now <= Run(block, es).now + block
  {
    TimerIsNear(block, es);
    all := GoesToTheEnd(block, es);
  }

  lemma {:induction false} GoesToTheEnd(block: nat, es: seq<Event>) returns (all: seq<Event>)
    requires Legal(block, es) && Run(block, es).locked
    ensures Legal(block, all) && es <= all && CalmFrom(|es|, all)
    ensures InTimeAnswered(block, Run(block, es), Run(block, all))
    decreases Distance(block, Run(block, es), LockerOf(Run(block, es)))
  {
    if NextCalm(Run(block, es), LockerOf(Run(block, es))).Timeout? {
      all := LastCalmStep(block, es);
    } else {
      var next := OneCalmStep(block, es);
      all := GoesToTheEnd(block, next);
      AnsweredLater(block, Run(block, es), Run(block, next), Run(block, all));
      CalmBefore(es, next, all);
    }
  }

  lemma {:induction false} CalmBefore(es: seq<Event>, next: seq<Event>, all: seq<Event>)
    requires es <= next <= all && |next| == |es| + 1 && IsCalm(next[|es|]) && CalmFrom(|next|, all)
    ensures es <= all && CalmFrom(|es|, all)
  {
    assert all[|es|] == next[|es|];
  }

  lemma {:induction false} LastCalmStep(block: nat, es: seq<Event>) returns (all: seq<Event>)
    requires Legal(block, es) && Run(block, es).locked
    requires NextCalm(Run(block, es), LockerOf(Run(block, es))).Timeout?
    ensures Legal(block, all) && es <= all && CalmFrom(|es|, all)
    ensures InTimeAnswered(block, Run(block, es), Run(block, all))
  {
    InvHolds(block, es);
    OneMoreCalm(block, es, Timeout);
    TimeoutAnswers(block, Run(block, es));
    all := es + [Timeout];
  }

  lemma {:induction false} OneCalmStep(block: nat, es: seq<Event>) returns (next: seq<Event>)
    requires Legal(block, es) && Run(block, es).locked
    requires !NextCalm(Run(block, es), LockerOf(Run(block, es))).Timeout?
    ensures Legal(block, next) && |next| == |es| + 1 && es <= next && IsCalm(next[|es|])
    ensures Nearer(block, Run(block, es), Run(block, next))
  {
    var s := Run(block, es);
    InvHolds(block, es);
    CalmStep(block, s);
    OneMoreCalm(block, es, NextCalm(s, LockerOf(s)));
    next := es + [NextCalm(s, LockerOf(s))];
  }
}
