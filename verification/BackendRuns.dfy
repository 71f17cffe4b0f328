/** Runs of the backend: every sequence of operations and transaction handles, and what any of
    them leaves in the database. */
module BackendRuns {
  import opened Wrappers
  import opened PhotoData
  import opened Database
  import opened Notifications
  import opened InMemoryBackend

  /** The operations on the database. */
  datatype DbOperation =
    | AddPhotos(deltas: seq<Delta>)
    | Update(changes: seq<Delta>)
    | SetFlag(flagged: int, name: string, value: int)
    | AddGroup(representative: int, kind: GroupType)
    | RemoveGroup(group: Id)
    | SetPHash(hashed: int, phash: Id)
    | WriteBlob(owner: int, blobKind: string, blob: string)
    | StorePerson(person: PersonInfo)
    | StoreName(nameId: Id, personName: string)

  datatype Event = Open | Abort | Release | Do(op: DbOperation)

  /** What the source demands of the caller of an operation: the photos it names are stored. */
  predicate Allowed(db: DB, op: DbOperation) {
    match op
    case Update(changes) => AllStored(db, changes)
    case AddGroup(p, _) => p in db.photos
    case _ => true
  }

  /** The effect of an operation on the database. */
  function Applied(db: DB, op: DbOperation): DB {
    match op
    case AddPhotos(deltas) => AllAdded(db, deltas)
    case Update(changes) => AllUpdated(db, changes)
    case SetFlag(p, name, value) => FlagSet(db, p, name, value)
    case AddGroup(p, kind) => GroupAdded(db, p, kind)
    case RemoveGroup(g) => GroupRemoved(db, g).0
    case SetPHash(p, phash) => PHashSet(db, p, phash)
    case WriteBlob(p, kind, blob) => BlobWritten(db, p, kind, blob)
    case StorePerson(fd) => PersonStored(db, fd).0
    case StoreName(id, name) => NameStored(db, id, name).0
  }

  /** The step of the whole backend: the operations that report changes run in a handle of their own. */
  function Step(s: State, e: Event): State
    requires Enabled(s, e)
  {
    match e
    case Open => Opened(s)
    case Abort => Aborted(s)
    case Release => Released(s)
    case Do(AddPhotos(deltas)) => AfterAddPhotos(s, deltas)
    case Do(Update(changes)) => AfterUpdate(s, changes)
    case Do(SetFlag(p, name, value)) => AfterSet(s, p, name, value)
    case Do(AddGroup(p, kind)) => AfterAddGroup(s, p, kind)
    case Do(RemoveGroup(g)) => AfterRemoveGroup(s, g)
    case Do(op) => s.(db := Applied(s.db, op))
  }

  predicate Enabled(s: State, e: Event) {
    match e
    case Open => true
    case Do(op) => Allowed(s.db, op)
    case _ => s.transaction.Some?
  }

  /** The events can happen one after the other from `s`. */
  predicate Legal(s: State, es: seq<Event>)
    decreases |es|, 0
  {
    es == [] || (Legal(s, es[..|es| - 1]) && Enabled(Run(s, es[..|es| - 1]), es[|es| - 1]))
  }

  function Run(s: State, es: seq<Event>): State
    requires Legal(s, es)
    decreases |es|, 1
  {
    if es == [] then s else Step(Run(s, es[..|es| - 1]), es[|es| - 1])
  }

  // ----- what an operation does inside and outside a transaction -----

  predicate HandlesAlive(s: State) {
    s.transaction.Some? ==> s.transaction.value.handles > 0
  }

  /** Inside a transaction an operation changes the database and what is pending, and nothing else:
      no signal, no snapshot, no handle. */
  lemma {:induction false} OperationInside(s: State, op: DbOperation)
    requires Enabled(s, Do(op)) && s.transaction.Some? && HandlesAlive(s)
    ensures var r := Step(s, Do(op));
      && r.db == Applied(s.db, op) && r.transaction == s.transaction && r.signals == s.signals
  {
    match op
    case AddGroup(p, kind) => GroupOperationsOnDb(s, p, kind, Invalid);
    case _ =>
  }

  lemma {:induction false} UnloggedFrame(db: DB, op: DbOperation)
    requires op.SetFlag? || op.WriteBlob? || op.StorePerson? || op.StoreName?
    ensures SamePhotosAndGroups(db, Applied(db, op))
  {
    match op
    case StoreName(id, name) => NameFrame(db, id, name);
    case _ =>
  }

  // ----- what an operation reports -----

  /** The ids an operation reports as added. */
  function AddedBy(db: DB, op: DbOperation): seq<int> {
    match op
    case AddPhotos(deltas) => NewIds(db, |deltas|)
    case _ => []
  }

  /** The stored photos an operation reports as modified. */
  function Touched(db: DB, op: DbOperation): set<int> {
    match op
    case Update(changes) => IdsOf(changes)
    case SetFlag(p, _, _) => {p}
    case AddGroup(p, _) => {p}
    case RemoveGroup(g) => if g.Valid? && g.value in db.groups then PhotosIn(db, g.value) else {}
    case _ => {}
  }

  lemma {:induction false} ClearedAreThoseInGroup(db: DB, g: int)
    ensures IdsOf(Clearings(PhotosToClear(db, g))) == PhotosIn(db, g)
  {
    var photos := PhotosToClear(db, g);
    forall p
      ensures p in IdsOf(Clearings(photos)) <==> p in PhotosIn(db, g)
    {
      if p in PhotosIn(db, g) {
        var i :| 0 <= i < |photos| && photos[i] == p;
        assert Clearings(photos)[i] in Clearings(photos);
      }
      if p in IdsOf(Clearings(photos)) {
        var d :| d in Clearings(photos) && d.id == Valid(p);
      }
    }
  }

  function AtMostTwo(added: seq<int>, modified: set<int>): seq<Signal> {
    (if added != [] then [PhotosAdded(added)] else []) + (if modified != {} then [PhotosModified(modified)] else [])
  }

  lemma {:induction false} FiredOfTwo(added: seq<int>, modified: set<int>)
    ensures Fired(Pending(added, modified, [])) == AtMostTwo(added, modified)
  {
    assert Raised(Pending(added, modified, [])) == Pending(added, modified, []);
  }

  /** Outside a transaction an operation takes effect on the database. */
  lemma {:induction false} EffectOutside(s: State, op: DbOperation)
    requires Enabled(s, Do(op)) && s.transaction.None?
    ensures Step(s, Do(op)).db == Applied(s.db, op) && Step(s, Do(op)).transaction.None?
  {
    match op
    case AddGroup(p, kind) => GroupOperationsOnDb(s, p, kind, Invalid);
    case _ =>
  }

  /** Outside a transaction an operation takes effect, and signals at once what it added and what it touched;
      nothing is pending there, as in every run. */
  lemma {:induction false} OperationOutside(s: State, op: DbOperation)
    requires Enabled(s, Do(op)) && s.transaction.None? && s.pending == NOTHING
    ensures var r := Step(s, Do(op));
      && r.db == Applied(s.db, op) && r.transaction.None? && r.pending == NOTHING
      && r.signals == s.signals + AtMostTwo(AddedBy(s.db, op), Touched(s.db, op))
  {
    match op
    case AddPhotos(deltas) => AddsOutside(s, deltas);
    case Update(changes) => UpdatesOutside(s, s.db, changes);
    case SetFlag(p, name, value) =>
      assert {} + {p} == {p};
      FiredOfTwo([], {p});
    case AddGroup(p, kind) =>
      GroupOperationsOnDb(s, p, kind, Invalid);
      FoundsOutside(s, p, kind);
    case RemoveGroup(g) => RemovesOutside(s, g);
    case _ => assert s.signals + [] == s.signals;
  }

  lemma {:induction false} AddsOutside(s: State, deltas: seq<Delta>)
    requires s.transaction.None? && s.pending == NOTHING
    ensures AfterAddPhotos(s, deltas).signals == s.signals + AtMostTwo(NewIds(s.db, |deltas|), {})
  {
    assert [] + NewIds(s.db, |deltas|) == NewIds(s.db, |deltas|);
    FiredOfTwo(NewIds(s.db, |deltas|), {});
  }

  lemma {:induction false} UpdatesOutside(s: State, db: DB, deltas: seq<Delta>)
    requires s.transaction.None? && s.pending == NOTHING
    ensures AfterUpdate(s.(db := db), deltas).signals == s.signals + AtMostTwo([], IdsOf(deltas))
  {
    assert {} + IdsOf(deltas) == IdsOf(deltas);
    FiredOfTwo([], IdsOf(deltas));
  }

  lemma {:induction false} FoundsOutside(s: State, p: int, kind: GroupType)
    requires s.transaction.None? && s.pending == NOTHING
    ensures AfterAddGroup(s, p, kind).signals == s.signals + AtMostTwo([], {p})
  {
    UpdatesOutside(s, GroupFounded(s.db, p, kind), [RepresentativeDelta(p, s.db.nextGroup)]);
    FoundedIsTouched(p, s.db.nextGroup);
  }

  lemma {:induction false} RemovesOutside(s: State, g: Id)
    requires s.transaction.None? && s.pending == NOTHING
    ensures AfterRemoveGroup(s, g).signals == s.signals + AtMostTwo([], Touched(s.db, RemoveGroup(g)))
  {
    if g.Valid? && g.value in s.db.groups {
      UpdatesOutside(s, GroupDropped(s.db, g.value), Clearings(PhotosToClear(s.db, g.value)));
      ClearedAreThoseInGroup(s.db, g.value);
    } else {
      assert s.signals + [] == s.signals;
    }
  }

  lemma {:induction false} FoundedIsTouched(photo: int, g: int)
    ensures IdsOf([RepresentativeDelta(photo, g)]) == {photo}
  {
    assert RepresentativeDelta(photo, g) in [RepresentativeDelta(photo, g)];
  }

  // ----- aborted transactions leave no trace -----

  /** The operations of a run, split by a scan that looks at the events only: those that took effect
      for good, and those of the running transaction. */
  datatype Scan = Scan(done: seq<DbOperation>, running: seq<DbOperation>, depth: nat, aborted: bool)

  function Scanned(es: seq<Event>): Scan {
    if es == [] then Scan([], [], 0, false)
    else
      var sc := Scanned(es[..|es| - 1]);
      match es[|es| - 1]
      case Open => if sc.depth == 0 then Scan(sc.done, [], 1, false) else sc.(depth := sc.depth + 1)
      case Abort => sc.(aborted := true)
      case Release =>
        if sc.depth > 1 then sc.(depth := sc.depth - 1)
        else Scan(sc.done + (if sc.aborted then [] else sc.running), [], 0, false)
      case Do(op) => if sc.depth == 0 then sc.(done := sc.done + [op]) else sc.(running := sc.running + [op])
  }

  function AppliedAll(db: DB, ops: seq<DbOperation>): DB {
    if ops == [] then db else Applied(AppliedAll(db, ops[..|ops| - 1]), ops[|ops| - 1])
  }

  predicate AllAllowed(db: DB, ops: seq<DbOperation>) {
    ops == [] || (AllAllowed(db, ops[..|ops| - 1]) && Allowed(AppliedAll(db, ops[..|ops| - 1]), ops[|ops| - 1]))
  }

  /** After any run: the database is what the operations outside aborted transactions made of it, in
      order, and the snapshot of a running transaction is what those before it made. Every one of
      those operations was allowed where it now takes place. */
  ghost predicate AsIfNeverAborted(start: DB, sc: Scan, s: State) {
    && s.db == AppliedAll(start, sc.done + sc.running) && AllAllowed(start, sc.done + sc.running)
    && (s.transaction.None? <==> sc.depth == 0)
    && (sc.depth == 0 ==> sc.running == [])
    && (s.transaction.Some? ==>
      && s.transaction.value.handles == sc.depth && s.transaction.value.aborted == sc.aborted
      && s.transaction.value.saved == AppliedAll(start, sc.done) && AllAllowed(start, sc.done))
  }

  lemma {:induction false} AbortedTransactionsLeaveNoTrace(s: State, es: seq<Event>)
    requires s.transaction.None? && Legal(s, es)
    ensures AsIfNeverAborted(s.db, Scanned(es), Run(s, es))
  {
    if es != [] {
      AbortedTransactionsLeaveNoTrace(s, es[..|es| - 1]);
      ScanStep(s.db, Scanned(es[..|es| - 1]), Run(s, es[..|es| - 1]), es, es[|es| - 1]);
    } else {
      assert AppliedAll(s.db, [] + []) == s.db;
    }
  }

  lemma {:induction false} ScanStep(start: DB, sc: Scan, s: State, es: seq<Event>, e: Event)
    requires es != [] && e == es[|es| - 1] && sc == Scanned(es[..|es| - 1])
    requires AsIfNeverAborted(start, sc, s) && Enabled(s, e)
    ensures AsIfNeverAborted(start, Scanned(es), Step(s, e))
  {
    match e
    case Open =>
      assert sc.done + [] == sc.done;
    case Abort =>
    case Release =>
      assert sc.done + [] == sc.done && (sc.done + sc.running) + [] == sc.done + sc.running;
    case Do(op) => ScanOperation(start, sc, s, op);
  }

  lemma {:induction false} ScanOperation(start: DB, sc: Scan, s: State, op: DbOperation)
    requires AsIfNeverAborted(start, sc, s) && Enabled(s, Do(op))
    ensures AsIfNeverAborted(start,
      if sc.depth == 0 then sc.(done := sc.done + [op]) else sc.(running := sc.running + [op]), Step(s, Do(op)))
  {
    if sc.depth == 0 {
      EffectOutside(s, op);
      assert sc.done + [] == sc.done && (sc.done + [op]) + [] == sc.done + [op];
    } else {
      OperationInside(s, op);
      assert (sc.done + sc.running) + [op] == sc.done + (sc.running + [op]);
    }
  }

  // ----- one transaction -----

  /** The number of handles alive after each event, starting from the one that opened the transaction. */
  function Depth(es: seq<Event>): int {
    if es == [] then 1
    else
      Depth(es[..|es| - 1]) + match es[|es| - 1] case Open => 1 case Release => -1 case _ => 0
  }

  /** The events happen while at least one handle is alive. */
  predicate WhileAlive(es: seq<Event>) {
    forall i | 0 <= i < |es| :: Depth(es[..i]) > 0
  }

  function Operations(es: seq<Event>): seq<DbOperation> {
    if es == [] then []
    else Operations(es[..|es| - 1]) + (if es[|es| - 1].Do? then [es[|es| - 1].op] else [])
  }

  /** Where a transaction opened in `s` stands: its database is what the operations have made of it. */
  ghost predicate StandsAt(s: State, r: State, aborted: bool, depth: int, ops: seq<DbOperation>) {
    depth > 0 && r.transaction == Some(Transaction(s.db, aborted, depth))
    && r.signals == s.signals && r.db == AppliedAll(s.db, ops)
  }

  lemma {:induction false} StandsAfterHandle(s: State, r: State, e: Event, aborted: bool, depth: int,
      ops: seq<DbOperation>)
    requires !e.Do? && Enabled(r, e) && StandsAt(s, r, aborted, depth, ops) && (e.Release? ==> depth > 1)
    ensures StandsAt(s, Step(r, e), aborted || e.Abort?,
      depth + (match e case Open => 1 case Release => -1 case _ => 0), ops)
  {
  }

  lemma {:induction false} StandsAfterOperation(s: State, r: State, op: DbOperation, aborted: bool, depth: int,
      ops: seq<DbOperation>)
    requires Enabled(r, Do(op)) && StandsAt(s, r, aborted, depth, ops)
    ensures StandsAt(s, Step(r, Do(op)), aborted, depth, ops + [op])
  {
    OperationInside(r, op);
    assert (ops + [op])[..|ops|] == ops;
  }

  lemma {:induction false} StandsAfterOne(s: State, r: State, e: Event, aborted: bool, depth: int,
      ops: seq<DbOperation>)
    requires Enabled(r, e) && StandsAt(s, r, aborted, depth, ops) && (e.Release? ==> depth > 1)
    ensures StandsAt(s, Step(r, e), aborted || e.Abort?,
      depth + (match e case Open => 1 case Release => -1 case _ => 0), if e.Do? then ops + [e.op] else ops)
  {
    match e
    case Do(op) => StandsAfterOperation(s, r, op, aborted, depth, ops);
    case _ => StandsAfterHandle(s, r, e, aborted, depth, ops);
  }

  /** Throughout a transaction: the snapshot is the database at the outermost open, nothing has been
      signalled, and the database is what the operations have made of it. */
  lemma {:induction false} DuringTransaction(s: State, es: seq<Event>)
    requires s.transaction.None? && Legal(Opened(s), es) && WhileAlive(es) && Depth(es) > 0
    ensures var r := Run(Opened(s), es);
      && r.transaction == Some(Transaction(s.db, Abort in es, Depth(es)))
      && r.signals == s.signals && r.db == AppliedAll(s.db, Operations(es))
  {
    DuringStands(s, es);
  }

  lemma {:induction false} DuringStands(s: State, es: seq<Event>)
    requires s.transaction.None? && Legal(Opened(s), es) && WhileAlive(es) && Depth(es) > 0
    ensures StandsAt(s, Run(Opened(s), es), Abort in es, Depth(es), Operations(es))
  {
    if es != [] {
      var shorter, e := es[..|es| - 1], es[|es| - 1];
      AliveBefore(es);
      OneMoreEvent(es);
      DuringStands(s, shorter);
      StandsAfterOne(s, Run(Opened(s), shorter), e, Abort in shorter, Depth(shorter), Operations(shorter));
    }
  }

  lemma {:induction false} OneMoreEvent(es: seq<Event>)
    requires es != []
    ensures var shorter, e := es[..|es| - 1], es[|es| - 1];
      && (Abort in es <==> Abort in shorter || e.Abort?)
      && Operations(es) == (if e.Do? then Operations(shorter) + [e.op] else Operations(shorter))
      && Depth(es) == Depth(shorter) + (match e case Open => 1 case Release => -1 case _ => 0)
  {
    var shorter := es[..|es| - 1];
    assert es == shorter + [es[|es| - 1]];
    assert Operations(shorter) + [] == Operations(shorter);
  }

  lemma {:induction false} AliveBefore(es: seq<Event>)
    requires es != [] && WhileAlive(es)
    ensures WhileAlive(es[..|es| - 1]) && Depth(es[..|es| - 1]) > 0
  {
    var shorter := es[..|es| - 1];
    assert forall i | 0 <= i < |shorter| :: shorter[..i] == es[..i];
  }

  /** Releasing the last handle: if any handle was aborted the whole database is the snapshot taken
      when the first was opened and nothing is signalled; otherwise the operations stand, and the
      pending changes are signalled, once each. */
  lemma {:induction false} TransactionEnds(s: State, es: seq<Event>)
    requires s.transaction.None? && es != [] && es[|es| - 1] == Release
    requires Legal(Opened(s), es) && WhileAlive(es) && Depth(es) == 0
    ensures var r := Run(Opened(s), es); var before := Run(Opened(s), es[..|es| - 1]);
      && r.transaction.None? && r.pending == NOTHING
      && r.db == (if Abort in es then s.db else AppliedAll(s.db, Operations(es)))
      && r.signals == s.signals + (if Abort in es then [] else Fired(before.pending))
  {
    BeforeLastRelease(es);
    DuringTransaction(s, es[..|es| - 1]);
  }

  lemma {:induction false} BeforeLastRelease(es: seq<Event>)
    requires es != [] && es[|es| - 1] == Release && WhileAlive(es) && Depth(es) == 0
    ensures var shorter := es[..|es| - 1];
      && WhileAlive(shorter) && Depth(shorter) == 1
      && Operations(shorter) == Operations(es) && (Abort in shorter <==> Abort in es)
  {
    var n := |es| - 1;
    var shorter := es[..n];
    assert es == shorter + [es[n]];
    forall i | 0 <= i < n
      ensures Depth(shorter[..i]) > 0
    {
      assert shorter[..i] == es[..i];
    }
  }
}
