/** Blocked connections: the slot is not called again while anyone holds the locker it was given, nor
    during the cool-down that follows. */
module SignalBlocker {
  import opened Wrappers

  /** What happened, in order. */
  datatype Entry =
    | Notified(at: nat)
    | Fired(locker: nat, at: nat)
    | Destroyed(locker: nat, at: nat)
    | Unlocked(at: nat)

  /** The blocker with its lockers (those alive, with the number of holders of each), the emissions of
      `fire` under way (each holding its locker), the timer starts that a locker destroyed in another
      thread has queued, and the time the timer is to go off at. */
  datatype State = State(now: nat, dirty: bool, locked: bool, lockers: map<nat, nat>, made: nat,
                         emitting: seq<nat>, starts: nat, timer: Option<nat>, log: seq<Entry>)

  const INITIAL := State(0, false, false, map[], 0, [], 0, None, [])

  function TriedToFire(s: State): State {
    if s.locked || !s.dirty then s
    else s.(dirty := false, locked := true, lockers := s.lockers[s.made := 1], made := s.made + 1,
            emitting := s.emitting + [s.made], log := s.log + [Fired(s.made, s.now)])
  }

  function WasNotified(s: State): State {
    TriedToFire(s.(dirty := true, log := s.log + [Notified(s.now)]))
  }

  function WasUnlocked(s: State): State {
    TriedToFire(s.(locked := false, log := s.log + [Unlocked(s.now)]))
  }

  /** The timer is idle again, as it is a single-shot one, and the blocker gets unlocked. */
  function TimedOut(s: State): State {
    WasUnlocked(s.(timer := None))
  }

  /** A holder lets the locker go. The last one destroys it, which starts the timer, at once or by a
      queued call. */
  function LetGo(block: nat, s: State, locker: nat, queued: bool): State
    requires locker in s.lockers && s.lockers[locker] > 0
  {
    if s.lockers[locker] > 1 then s.(lockers := s.lockers[locker := s.lockers[locker] - 1])
    else
      var t := s.(lockers := s.lockers - {locker}, log := s.log + [Destroyed(locker, s.now)]);
      if queued then t.(starts := s.starts + 1) else t.(timer := Some(s.now + block))
  }

  class SignalBlocker {
    const block: nat
    var now: nat
    var dirty: bool
    var locked: bool
    var lockers: map<nat, nat>
    var made: nat
    var emitting: seq<nat>
    var starts: nat
    var timer: Option<nat>
    ghost var log: seq<Entry>

    ghost function View(): State
      reads this
    {
      State(now, dirty, locked, lockers, made, emitting, starts, timer, log)
    }

    constructor (blockTime: nat)
      ensures block == blockTime && View() == INITIAL
    {
      block := blockTime;
      now, dirty, locked, lockers, made, emitting, starts, timer, log := 0, false, false, map[], 0, [], 0, None, [];
    }

    method Notify()
      modifies this
      ensures View() == WasNotified(old(View()))
    {
      dirty := true;
      log := log + [Notified(now)];
      TryFire();
    }

    /** Emitting is only begun here: the slots run, and copy the locker, before TryFire lets it go. */
    method TryFire()
      modifies this
      ensures View() == TriedToFire(old(View()))
    {
      if !locked && dirty {
        dirty := false;
        var locker := Lock();
        emitting := emitting + [locker];
        log := log + [Fired(locker, now)];
      }
    }

    /** The assertion at its start is the precondition. */
    method Lock() returns (locker: nat)
      requires !locked
      modifies this
      ensures locker == old(made)
      ensures View() == old(View()).(locked := true, made := locker + 1, lockers := old(lockers)[locker := 1])
    {
      locker := made;
      lockers, made := lockers[locker := 1], made + 1;
      locked := true;
    }

    /** The assertion at its start is the precondition. */
    method Unlock()
      requires locked
      modifies this
      ensures View() == WasUnlocked(old(View()))
    {
      locked := false;
      log := log + [Unlocked(now)];
      TryFire();
    }

    method Timeout()
      requires locked && timer.Some?
      modifies this
      ensures View() == TimedOut(old(View()))
    {
      timer := None;
      Unlock();
    }

    method DropLocker(locker: nat, queued: bool)
      requires locker in lockers && lockers[locker] > 0
      modifies this
      ensures View() == LetGo(block, old(View()), locker, queued)
    {
      if lockers[locker] > 1 {
        lockers := lockers[locker := lockers[locker] - 1];
      } else {
        lockers := lockers - {locker};
        log := log + [Destroyed(locker, now)];
        if queued {
          starts := starts + 1;
        } else {
          timer := Some(now + block);
        }
      }
    }
  }

  // ----- runs -----

  datatype Event =
    | Notify                             // from any thread, or from a slot being called
    | EndEmission(queued: bool)          // the slots have returned and the local locker goes
    | CopyLocker(locker: nat)
    | DropLocker(locker: nat, queued: bool)
    | StartTimer                         // a queued start is delivered
    | Timeout                            // not before its time, but maybe late
    | Tick

  /** The local locker of an emission is not for others to drop. */
  function KeptByEmission(s: State, locker: nat): nat {
    if locker in s.emitting then 1 else 0
  }

  predicate Enabled(s: State, e: Event) {
    match e
    case Notify => true
    case EndEmission(_) => s.emitting != []
    case CopyLocker(l) => l in s.lockers
    case DropLocker(l, _) => l in s.lockers && s.lockers[l] > KeptByEmission(s, l)
    case StartTimer => s.starts > 0
    case Timeout => s.timer.Some? && s.timer.value <= s.now
    case Tick => true
  }

  function Step(block: nat, s: State, e: Event): State
    requires Enabled(s, e)
  {
    match e
    case Notify => WasNotified(s)
    case EndEmission(queued) =>
      var l := s.emitting[|s.emitting| - 1];
      var t := s.(emitting := s.emitting[..|s.emitting| - 1]);
      if l in s.lockers && s.lockers[l] > 0 then LetGo(block, t, l, queued) else t
    case CopyLocker(l) => s.(lockers := s.lockers[l := s.lockers[l] + 1])
    case DropLocker(l, queued) => LetGo(block, s, l, queued)
    case StartTimer => s.(starts := s.starts - 1, timer := Some(s.now + block))
    case Timeout => TimedOut(s)
    case Tick => s.(now := s.now + 1)
  }

  predicate Legal(block: nat, es: seq<Event>)
    decreases |es|, 0
  {
    es == [] || (Legal(block, es[..|es| - 1]) && Enabled(Run(block, es[..|es| - 1]), es[|es| - 1]))
  }

  function Run(block: nat, es: seq<Event>): State
    requires Legal(block, es)
    decreases |es|, 1
  {
    if es == [] then INITIAL else Step(block, Run(block, es[..|es| - 1]), es[|es| - 1])
  }

  // ----- what is promised, said of the log alone -----

  datatype Phase = Free | Held(locker: nat) | Cooling(since: nat)

  function PhaseOf(log: seq<Entry>): Phase {
    if log == [] then Free else PhaseAfter(PhaseOf(log[..|log| - 1]), log[|log| - 1])
  }

  function PhaseAfter(before: Phase, x: Entry): Phase {
    match x
    case Notified(_) => before
    case Fired(l, _) => Held(l)
    case Destroyed(_, at) => Cooling(at)
    case Unlocked(_) => Free
  }

  /** Someone has notified since the last call of the slot. */
  function Waiting(log: seq<Entry>): bool {
    log != [] && match log[|log| - 1]
      case Notified(_) => true
      case Fired(_, _) => false
      case _ => Waiting(log[..|log| - 1])
  }

  predicate MayFollow(block: nat, log: seq<Entry>, x: Entry) {
    match x
    case Notified(_) => true
    case Fired(_, _) => PhaseOf(log) == Free && Waiting(log)
    case Destroyed(l, _) => PhaseOf(log) == Held(l)
    case Unlocked(at) => PhaseOf(log).Cooling? && PhaseOf(log).since + block <= at
  }

  /** A slot is called only when free and asked for; a locker is the one of the last call; unlocking
      follows its destruction by the block time at least. */
  ghost predicate Orderly(block: nat, log: seq<Entry>) {
    forall i | 0 <= i < |log| :: MayFollow(block, log[..i], log[i])
  }

  /** Whenever it was free and asked for, the slot was called next, and at once. */
  ghost predicate PromptBefore(log: seq<Entry>) {
    forall i | 0 < i < |log| && PhaseOf(log[..i]) == Free && Waiting(log[..i]) ::
      log[i].Fired? && log[i].at == log[i - 1].at
  }

  /** And it is not free and asked for now. */
  ghost predicate Prompt(log: seq<Entry>) {
    PromptBefore(log) && !(PhaseOf(log) == Free && Waiting(log))
  }

  ghost predicate InTime(now: nat, log: seq<Entry>) {
    && (forall i | 0 <= i < |log| :: log[i].at <= now)
    && (forall i, j | 0 <= i <= j < |log| :: log[i].at <= log[j].at)
  }

  // ----- the invariant -----

  ghost predicate PhaseInv(block: nat, s: State) {
    match PhaseOf(s.log)
    case Free => !s.locked && !s.dirty && s.lockers == map[] && s.emitting == [] && s.starts == 0 && s.timer == None
    case Held(l) =>
      && s.locked && l in s.lockers && s.lockers == map[l := s.lockers[l]] && s.lockers[l] > 0
      && s.starts == 0 && s.timer == None
      && (s.emitting == [] || s.emitting == [l])
    case Cooling(since) =>
      && s.locked && s.lockers == map[] && s.emitting == [] && since <= s.now
      && if s.starts == 0 then s.timer.Some? && since + block <= s.timer.value else s.starts == 1 && s.timer == None
  }

  ghost predicate LogInv(block: nat, s: State) {
    s.dirty == Waiting(s.log) && Orderly(block, s.log) && Prompt(s.log) && InTime(s.now, s.log)
  }

  lemma {:induction false} Extended(log: seq<Entry>, x: Entry)
    ensures (log + [x])[..|log|] == log && (log + [x])[|log|] == x
    ensures PhaseOf(log + [x]) == PhaseAfter(PhaseOf(log), x)
    ensures Waiting(log + [x]) == match x { case Notified(_) => true case Fired(_, _) => false case _ => Waiting(log) }
  {
    assert (log + [x])[..|log|] == log;
  }

  lemma {:induction false} OrderlyAfter(block: nat, log: seq<Entry>, x: Entry)
    requires Orderly(block, log) && MayFollow(block, log, x)
    ensures Orderly(block, log + [x])
  {
    forall i | 0 <= i < |log + [x]| ensures MayFollow(block, (log + [x])[..i], (log + [x])[i]) {
      assert (log + [x])[..i] == log[..i];
      assert log[..|log|] == log;
    }
  }

  lemma {:induction false} PromptUpTo(log: seq<Entry>, x: Entry)
    requires PromptBefore(log)
    requires log != [] && PhaseOf(log) == Free && Waiting(log) ==> x.Fired? && x.at == log[|log| - 1].at
    ensures PromptBefore(log + [x])
  {
    forall i | 0 < i < |log + [x]| && PhaseOf((log + [x])[..i]) == Free && Waiting((log + [x])[..i])
      ensures (log + [x])[i].Fired? && (log + [x])[i].at == (log + [x])[i - 1].at
    {
      assert (log + [x])[..i] == log[..i];
      assert log[..|log|] == log;
    }
  }

  lemma {:induction false} InTimeAfter(now: nat, log: seq<Entry>, x: Entry)
    requires InTime(now, log) && x.at == now
    ensures InTime(now, log + [x])
  {
  }

  /** What appending one entry keeps, the promptness of its end aside. */
  ghost predicate Recorded(block: nat, now: nat, log: seq<Entry>) {
    Orderly(block, log) && PromptBefore(log) && InTime(now, log)
  }

  lemma {:induction false} Record(block: nat, now: nat, log: seq<Entry>, x: Entry)
    requires Recorded(block, now, log) && MayFollow(block, log, x) && x.at == now
    requires log != [] && PhaseOf(log) == Free && Waiting(log) ==> x.Fired? && now == log[|log| - 1].at
    ensures Recorded(block, now, log + [x])
  {
    OrderlyAfter(block, log, x);
    PromptUpTo(log, x);
    InTimeAfter(now, log, x);
  }

  lemma {:induction false} CallKeepsLog(block: nat, s: State)
    requires s.log != [] && s.log[|s.log| - 1].at == s.now && !s.locked && s.dirty
    requires Recorded(block, s.now, s.log) && Waiting(s.log) && PhaseOf(s.log) == Free
    ensures LogInv(block, TriedToFire(s)) && PhaseOf(TriedToFire(s).log) == Held(s.made)
  {
    var y := Fired(s.made, s.now);
    Record(block, s.now, s.log, y);
    Extended(s.log, y);
  }

  /** tryFire, just after a notification or an unlock. */
  lemma {:induction false} TryFireKeeps(block: nat, s: State)
    requires s.log != [] && s.log[|s.log| - 1].at == s.now
    requires Recorded(block, s.now, s.log) && s.dirty == Waiting(s.log)
    requires PhaseInv(block, s.(dirty := false))
    ensures PhaseInv(block, TriedToFire(s)) && LogInv(block, TriedToFire(s))
  {
    if !s.locked && s.dirty {
      CallKeepsLog(block, s);
      assert s.lockers[s.made := 1] == map[s.made := 1];
    }
  }

  lemma {:induction false} NotifyKeeps(block: nat, s: State)
    requires PhaseInv(block, s) && LogInv(block, s)
    ensures PhaseInv(block, WasNotified(s)) && LogInv(block, WasNotified(s))
  {
    var x := Notified(s.now);
    Record(block, s.now, s.log, x);
    Extended(s.log, x);
    TryFireKeeps(block, s.(dirty := true, log := s.log + [x]));
  }

  lemma {:induction false} TimeoutKeeps(block: nat, s: State)
    requires Enabled(s, Timeout) && PhaseInv(block, s) && LogInv(block, s)
    ensures s.locked && PhaseInv(block, TimedOut(s)) && LogInv(block, TimedOut(s))
  {
    var x := Unlocked(s.now);
    Record(block, s.now, s.log, x);
    Extended(s.log, x);
    TryFireKeeps(block, s.(timer := None, locked := false, log := s.log + [x]));
  }

  lemma {:induction false} LetGoKeeps(block: nat, s: State, l: nat, queued: bool)
    requires PhaseInv(block, s) && LogInv(block, s) && l in s.lockers && s.lockers[l] > 0
    requires s.lockers[l] == 1 ==> s.emitting == []
    ensures PhaseInv(block, LetGo(block, s, l, queued)) && LogInv(block, LetGo(block, s, l, queued))
  {
    if s.lockers[l] == 1 {
      LastHolderLetsGo(block, s, l, queued);
    } else {
      assert s.lockers[l := s.lockers[l] - 1] == map[l := s.lockers[l] - 1];
    }
  }

  /** The locker is destroyed, and the cool-down begins. */
  lemma {:induction false} LastHolderLetsGo(block: nat, s: State, l: nat, queued: bool)
    requires PhaseInv(block, s) && LogInv(block, s) && l in s.lockers && s.lockers[l] == 1 && s.emitting == []
    ensures PhaseInv(block, LetGo(block, s, l, queued)) && LogInv(block, LetGo(block, s, l, queued))
  {
    var x, r := Destroyed(l, s.now), LetGo(block, s, l, queued);
    assert PhaseOf(s.log) == Held(l);
    Record(block, s.now, s.log, x);
    Extended(s.log, x);
    assert r.log == s.log + [x] && PhaseOf(r.log) == Cooling(s.now);
    assert r.lockers == map[];
  }

  lemma {:induction false} StepKeeps(block: nat, s: State, e: Event)
    requires Enabled(s, e) && PhaseInv(block, s) && LogInv(block, s)
    ensures PhaseInv(block, Step(block, s, e)) && LogInv(block, Step(block, s, e))
  {
    match e
    case Notify => NotifyKeeps(block, s);
    case Timeout => TimeoutKeeps(block, s);
    case DropLocker(l, queued) => LetGoKeeps(block, s, l, queued);
    case EndEmission(queued) => EndEmissionKeeps(block, s, queued);
    case CopyLocker(l) => CopyKeeps(block, s, l);
    case StartTimer =>
    case Tick =>
  }

  lemma {:induction false} EndEmissionKeeps(block: nat, s: State, queued: bool)
    requires s.emitting != [] && PhaseInv(block, s) && LogInv(block, s)
    ensures PhaseInv(block, Step(block, s, EndEmission(queued))) && LogInv(block, Step(block, s, EndEmission(queued)))
  {
    var l := s.emitting[|s.emitting| - 1];
    LetGoKeeps(block, s.(emitting := s.emitting[..|s.emitting| - 1]), l, queued);
  }

  lemma {:induction false} CopyKeeps(block: nat, s: State, l: nat)
    requires l in s.lockers && PhaseInv(block, s) && LogInv(block, s)
    ensures PhaseInv(block, Step(block, s, CopyLocker(l))) && LogInv(block, Step(block, s, CopyLocker(l)))
  {
    assert s.lockers[l := s.lockers[l] + 1] == map[l := s.lockers[l] + 1];
  }

  lemma {:induction false} InvHolds(block: nat, es: seq<Event>)
    requires Legal(block, es)
    ensures PhaseInv(block, Run(block, es)) && LogInv(block, Run(block, es))
  {
    if es != [] {
      InvHolds(block, es[..|es| - 1]);
      StepKeeps(block, Run(block, es[..|es| - 1]), es[|es| - 1]);
    }
  }

  // ----- what every run keeps -----

  /** At most one locker is alive; the blocker is locked exactly while a locker is alive, or the start of
      the timer is queued, or the timer runs, and these exclude each other; unlocked means not dirty; and
      the assertions of lock and unlock always hold. */
  lemma {:induction false} LockedWhileHeldOrCooling(block: nat, es: seq<Event>)
    requires Legal(block, es)
    ensures
      var s := Run(block, es);
      && |s.lockers| + s.starts + (if s.timer.Some? then 1 else 0) == (if s.locked then 1 else 0)
      && (!s.locked ==> !s.dirty)
      && (Enabled(s, Timeout) ==> s.locked)
      && (s.emitting != [] ==> |s.lockers| == 1 && s.emitting[0] in s.lockers)
  {
    InvHolds(block, es);
    var s := Run(block, es);
    assert PhaseOf(s.log).Held? ==> s.lockers.Keys == {PhaseOf(s.log).locker};
  }

  lemma {:induction false} LogOfRun(block: nat, es: seq<Event>)
    requires Legal(block, es)
    ensures Orderly(block, Run(block, es).log) && Prompt(Run(block, es).log)
    ensures InTime(Run(block, es).now, Run(block, es).log)
  {
    InvHolds(block, es);
  }

  lemma {:induction false} PhaseOneMore(log: seq<Entry>, k: nat)
    requires k < |log|
    ensures log[k].Notified? ==> PhaseOf(log[..k + 1]) == PhaseOf(log[..k])
    ensures log[k].Fired? ==> PhaseOf(log[..k + 1]) == Held(log[k].locker)
    ensures log[k].Destroyed? ==> PhaseOf(log[..k + 1]) == Cooling(log[k].at)
  {
    assert log[..k + 1][..k] == log[..k];
  }

  /** What can come next while the locker is held, and during the cool-down. */
  lemma {:induction false} NextWhileHeld(block: nat, log: seq<Entry>, locker: nat, k: nat)
    requires Orderly(block, log) && k < |log| && PhaseOf(log[..k]) == Held(locker)
    ensures log[k].Notified? ==> PhaseOf(log[..k + 1]) == Held(locker)
    ensures !log[k].Notified? ==> log[k].Destroyed? && log[k].locker == locker
  {
    assert MayFollow(block, log[..k], log[k]);
    PhaseOneMore(log, k);
  }

  lemma {:induction false} NextWhileCooling(block: nat, log: seq<Entry>, since: nat, k: nat)
    requires Orderly(block, log) && k < |log| && PhaseOf(log[..k]) == Cooling(since)
    ensures log[k].Notified? ==> PhaseOf(log[..k + 1]) == Cooling(since)
    ensures !log[k].Notified? ==> log[k].Unlocked? && since + block <= log[k].at
  {
    assert MayFollow(block, log[..k], log[k]);
    PhaseOneMore(log, k);
  }

  /** The end of the time its locker is held, after a call that is followed by another. */
  lemma {:induction false} HeldUntil(block: nat, log: seq<Entry>, i: nat, j: nat) returns (d: nat)
    requires Orderly(block, log) && i < j < |log| && log[i].Fired? && log[j].Fired?
    ensures i < d < j && log[d].Destroyed? && log[d].locker == log[i].locker
    ensures forall k | i < k < d :: log[k].Notified?
  {
    PhaseOneMore(log, i);
    d := HeldFrom(block, log, log[i].locker, i + 1, j);
  }

  lemma {:induction false} HeldFrom(block: nat, log: seq<Entry>, locker: nat, k: nat, j: nat) returns (d: nat)
    requires Orderly(block, log) && k <= j < |log| && PhaseOf(log[..k]) == Held(locker) && log[j].Fired?
    ensures k <= d < j && log[d].Destroyed? && log[d].locker == locker
    ensures forall l | k <= l < d :: log[l].Notified?
    decreases j - k
  {
    NextWhileHeld(block, log, locker, k);
    if log[k].Notified? {
      d := HeldFrom(block, log, locker, k + 1, j);
    } else {
      d := k;
    }
  }

  lemma {:induction false} CoolingUntil(block: nat, log: seq<Entry>, d: nat, j: nat) returns (u: nat)
    requires Orderly(block, log) && d < j < |log| && log[d].Destroyed? && log[j].Fired?
    ensures d < u < j && log[u].Unlocked? && log[d].at + block <= log[u].at
    ensures forall k | d < k < u :: log[k].Notified?
  {
    PhaseOneMore(log, d);
    u := CoolingFrom(block, log, log[d].at, d + 1, j);
  }

  lemma {:induction false} CoolingFrom(block: nat, log: seq<Entry>, since: nat, k: nat, j: nat) returns (u: nat)
    requires Orderly(block, log) && k <= j < |log| && PhaseOf(log[..k]) == Cooling(since) && log[j].Fired?
    ensures k <= u < j && log[u].Unlocked? && since + block <= log[u].at
    ensures forall l | k <= l < u :: log[l].Notified?
    decreases j - k
  {
    NextWhileCooling(block, log, since, k);
    if log[k].Notified? {
      u := CoolingFrom(block, log, since, k + 1, j);
    } else {
      u := k;
    }
  }

  /** The locker of call `i` is destroyed at `d`, and the cool-down ends at `u`, before call `j`. */
  ghost predicate Apart(block: nat, log: seq<Entry>, i: nat, d: nat, u: nat, j: nat) {
    && i < d < u < j < |log| && log[i].Fired? && log[d].Destroyed? && log[d].locker == log[i].locker && log[u].Unlocked?
    && log[d].at + block <= log[u].at <= log[j].at
    && forall k | i < k < u :: !log[k].Fired? && !log[k].Unlocked?
  }

  /** Calls of the slot never overlap: between any two of them the earlier one's locker was destroyed, by
      all its holders, and the cool-down went by; no other call or unlock came before that. */
  lemma {:induction false} CallsDoNotOverlap(block: nat, es: seq<Event>, i: nat, j: nat) returns (d: nat, u: nat)
    requires Legal(block, es) && i < j < |Run(block, es).log|
    requires Run(block, es).log[i].Fired? && Run(block, es).log[j].Fired?
    ensures Apart(block, Run(block, es).log, i, d, u, j)
  {
    LogOfRun(block, es);
    d, u := HeldAndCooled(block, Run(block, es).now, Run(block, es).log, i, j);
  }

  lemma {:induction false} HeldAndCooled(block: nat, now: nat, log: seq<Entry>, i: nat, j: nat) returns (d: nat, u: nat)
    requires Orderly(block, log) && InTime(now, log) && i < j < |log| && log[i].Fired? && log[j].Fired?
    ensures Apart(block, log, i, d, u, j)
  {
    d := HeldUntil(block, log, i, j);
    u := CoolingUntil(block, log, d, j);
  }

  lemma {:induction false} WaitingMeans(log: seq<Entry>)
    ensures Waiting(log) <==>
      exists i :: 0 <= i < |log| && log[i].Notified? && forall k | i < k < |log| :: !log[k].Fired?
  {
    if log != [] {
      var front, x := log[..|log| - 1], log[|log| - 1];
      WaitingMeans(front);
      if Waiting(front) && !x.Fired? {
        var i :| 0 <= i < |front| && front[i].Notified? && forall k | i < k < |front| :: !front[k].Fired?;
        assert log[i].Notified? && forall k | i < k < |log| :: !log[k].Fired?;
      }
      if i :| 0 <= i < |log| && log[i].Notified? && forall k | i < k < |log| :: !log[k].Fired? {
        assert i < |front| ==> front[i].Notified? && !x.Fired?;
      }
    }
  }

  /** Someone has notified before position `i`, and after the last call of the slot before it. */
  ghost predicate AskedFor(log: seq<Entry>, i: nat) {
    i <= |log| && exists n :: 0 <= n < i && log[n].Notified? && forall k | n < k < i :: !log[k].Fired?
  }

  lemma {:induction false} WaitingIsAskedFor(log: seq<Entry>, i: nat)
    requires i <= |log|
    ensures Waiting(log[..i]) <==> AskedFor(log, i)
  {
    var front := log[..i];
    WaitingMeans(front);
    if Waiting(front) {
      var n :| 0 <= n < |front| && front[n].Notified? && forall k | n < k < |front| :: !front[k].Fired?;
      assert log[n].Notified? && forall k | n < k < i :: log[k] == front[k];
    }
    if AskedFor(log, i) {
      var n :| 0 <= n < i && log[n].Notified? && forall k | n < k < i :: !log[k].Fired?;
      assert front[n].Notified? && forall k | n < k < i :: log[k] == front[k];
    }
  }

  /** The next entry is a call of the slot, at the same time. */
  predicate CalledAtOnce(log: seq<Entry>, i: nat) {
    i + 1 < |log| && log[i + 1].Fired? && log[i + 1].at == log[i].at
  }

  lemma {:induction false} CalledIffWaiting(block: nat, log: seq<Entry>, i: nat)
    requires Orderly(block, log) && Prompt(log) && i < |log| && (log[i].Unlocked? || log[i].Notified?)
    ensures CalledAtOnce(log, i) <==> PhaseOf(log[..i + 1]) == Free && Waiting(log[..i + 1])
  {
    assert i + 1 < |log| ==> MayFollow(block, log[..i + 1], log[i + 1]);
    assert (log[..i + 1])[..i] == log[..i];
    if CalledAtOnce(log, i) {
      assert MayFollow(block, log[..i + 1], log[i + 1]);
    }
  }

  /** One call for any number of notifications: unlocking is followed at once by a call of the slot if
      and only if someone has notified since the last call. */
  lemma {:induction false} OneCallAfterUnlock(block: nat, es: seq<Event>, u: nat)
    requires Legal(block, es) && u < |Run(block, es).log| && Run(block, es).log[u].Unlocked?
    ensures CalledAtOnce(Run(block, es).log, u) <==> AskedFor(Run(block, es).log, u)
  {
    LogOfRun(block, es);
    CallAtUnlock(block, Run(block, es).log, u);
  }

  lemma {:induction false} CallAtUnlock(block: nat, log: seq<Entry>, u: nat)
    requires Orderly(block, log) && Prompt(log) && u < |log| && log[u].Unlocked?
    ensures CalledAtOnce(log, u) <==> AskedFor(log, u)
  {
    CalledIffWaiting(block, log, u);
    WaitingIsAskedFor(log, u);
    Extended(log[..u], log[u]);
    assert log[..u + 1] == log[..u] + [log[u]];
  }

  /** A notification calls the slot at once if and only if it finds the blocker free: nobody has called
      it yet, or the last thing but notifications was an unlock. */
  lemma {:induction false} CallAtNotify(block: nat, es: seq<Event>, i: nat)
    requires Legal(block, es) && i < |Run(block, es).log| && Run(block, es).log[i].Notified?
    ensures CalledAtOnce(Run(block, es).log, i) <==> PhaseOf(Run(block, es).log[..i]) == Free
  {
    LogOfRun(block, es);
    CallWhenFree(block, Run(block, es).log, i);
  }

  lemma {:induction false} CallWhenFree(block: nat, log: seq<Entry>, i: nat)
    requires Orderly(block, log) && Prompt(log) && i < |log| && log[i].Notified?
    ensures CalledAtOnce(log, i) <==> PhaseOf(log[..i]) == Free
  {
    CalledIffWaiting(block, log, i);
    Extended(log[..i], log[i]);
    assert log[..i + 1] == log[..i] + [log[i]];
  }

  /** No call is made unasked, and none while the blocker is held or cools down. */
  lemma {:induction false} NoCallUnasked(block: nat, es: seq<Event>, i: nat)
    requires Legal(block, es) && i < |Run(block, es).log| && Run(block, es).log[i].Fired?
    ensures AskedFor(Run(block, es).log, i) && PhaseOf(Run(block, es).log[..i]) == Free
  {
    LogOfRun(block, es);
    assert MayFollow(block, Run(block, es).log[..i], Run(block, es).log[i]);
    WaitingIsAskedFor(Run(block, es).log, i);
  }
}
