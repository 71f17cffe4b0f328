/** The signals of a commit: what they name, for every transaction. */
module SignalRuns {
  import opened Wrappers
  import opened PhotoData
  import opened Database
  import opened Notifications
  import opened InMemoryBackend
  import opened BackendRuns

  function FlagsOf(db: DB, photo: int): map<string, int> {
    if photo in db.flags then db.flags[photo] else map[]
  }

  /** The stored data or the general flags of a photo differ from those of the snapshot. */
  predicate Changed(saved: DB, db: DB, photo: int) {
    (photo in db.photos && photo !in saved.photos) || ChangedInPlace(saved, db, photo)
  }

  predicate ChangedInPlace(saved: DB, db: DB, photo: int) {
    || (photo in db.photos && photo in saved.photos && saved.photos[photo] != db.photos[photo])
    || FlagsOf(saved, photo) != FlagsOf(db, photo)
  }

  /** Every difference from the snapshot, other than new photos, is among the modified ones. */
  ghost predicate Named(saved: DB, db: DB, modified: set<int>) {
    forall p | ChangedInPlace(saved, db, p) :: p in modified
  }

  /** What is pending accounts for every difference from the snapshot. */
  ghost predicate Accounted(saved: DB, db: DB, pending: Pending) {
    && Inv(saved) && Inv(db) && saved.nextPhoto <= db.nextPhoto
    && pending.removed == []
    && pending.added == NewIds(saved, db.nextPhoto - saved.nextPhoto)
    && Named(saved, db, pending.modified)
  }

  /** The operations whose changes are reported: all but setPHash. */
  predicate Reporting(op: DbOperation) {
    !op.SetPHash?
  }

  lemma {:induction false} AddingIsAccounted(saved: DB, db: DB, pending: Pending, deltas: seq<Delta>)
    requires Accounted(saved, db, pending)
    ensures Accounted(saved, AllAdded(db, deltas), pending.(added := pending.added + NewIds(db, |deltas|)))
  {
    var db' := AllAdded(db, deltas);
    AddedRows(db, deltas);
    forall p | ChangedInPlace(saved, db', p)
      ensures p in pending.modified
    {
      assert p in saved.photos ==> p in db.photos;
      assert ChangedInPlace(saved, db, p);
    }
  }

  /** Updating, after a change of the group table or not. */
  lemma {:induction false} UpdatingIsAccounted(saved: DB, db: DB, db': DB, pending: Pending, deltas: seq<Delta>)
    requires Accounted(saved, db, pending)
    requires db' == db.(groups := db'.groups, nextGroup := db'.nextGroup) && Inv(db')
    ensures Accounted(saved, AllUpdated(db', deltas), pending.(modified := pending.modified + IdsOf(deltas)))
  {
    var db'' := AllUpdated(db', deltas);
    UpdatedRows(db', deltas);
    forall p | ChangedInPlace(saved, db'', p)
      ensures p in pending.modified + IdsOf(deltas)
    {
      if p !in IdsOf(deltas) {
        assert ChangedInPlace(saved, db, p);
      }
    }
  }

  lemma {:induction false} GroupOperationIsAccounted(saved: DB, s: State, op: DbOperation)
    requires Accounted(saved, s.db, s.pending) && s.transaction.Some? && HandlesAlive(s)
    requires Enabled(s, Do(op)) && (op.AddGroup? || op.RemoveGroup?)
    ensures var r := Step(s, Do(op)); Accounted(saved, r.db, r.pending)
  {
    if op.AddGroup? {
      var db' := GroupFounded(s.db, op.representative, op.kind);
      var deltas := [RepresentativeDelta(op.representative, s.db.nextGroup)];
      FoundedInv(s.db, op.representative, op.kind);
      UpdatingIsAccounted(saved, s.db, db', s.pending, deltas);
    } else if op.group.Valid? && op.group.value in s.db.groups {
      var db' := GroupDropped(s.db, op.group.value);
      DroppedInv(s.db, op.group.value);
      var deltas := Clearings(PhotosToClear(s.db, op.group.value));
      UpdatingIsAccounted(saved, s.db, db', s.pending, deltas);
    }
  }

  /** Every reporting operation inside a transaction keeps the account. */
  lemma {:induction false} OperationIsAccounted(saved: DB, s: State, op: DbOperation)
    requires Accounted(saved, s.db, s.pending) && s.transaction.Some? && HandlesAlive(s)
    requires Enabled(s, Do(op)) && Reporting(op)
    ensures var r := Step(s, Do(op)); Accounted(saved, r.db, r.pending)
  {
    match op
    case AddPhotos(deltas) => AddPhotosIsAccounted(saved, s, deltas);
    case Update(changes) => UpdateIsAccounted(saved, s, changes);
    case SetFlag(_, _, _) =>
    case AddGroup(_, _) => GroupOperationIsAccounted(saved, s, op);
    case RemoveGroup(_) => GroupOperationIsAccounted(saved, s, op);
    case _ => OtherIsAccounted(saved, s, op);
  }

  lemma {:induction false} AddPhotosIsAccounted(saved: DB, s: State, deltas: seq<Delta>)
    requires Accounted(saved, s.db, s.pending) && s.transaction.Some? && HandlesAlive(s)
    ensures var r := AfterAddPhotos(s, deltas); Accounted(saved, r.db, r.pending)
  {
    AddingIsAccounted(saved, s.db, s.pending, deltas);
  }

  lemma {:induction false} UpdateIsAccounted(saved: DB, s: State, changes: seq<Delta>)
    requires Accounted(saved, s.db, s.pending) && s.transaction.Some? && HandlesAlive(s)
    ensures var r := AfterUpdate(s, changes); Accounted(saved, r.db, r.pending)
  {
    UpdatingIsAccounted(saved, s.db, s.db, s.pending, changes);
  }

  lemma {:induction false} OtherIsAccounted(saved: DB, s: State, op: DbOperation)
    requires Accounted(saved, s.db, s.pending) && (op.WriteBlob? || op.StorePerson? || op.StoreName?)
    ensures Accounted(saved, Applied(s.db, op), s.pending)
  {
    UnloggedFrame(s.db, op);
  }

  predicate AllReporting(es: seq<Event>) {
    forall i | 0 <= i < |es| :: es[i].Do? ==> Reporting(es[i].op)
  }

  lemma {:induction false} TransactionIsAccounted(s: State, es: seq<Event>)
    requires s.transaction.None? && s.pending == NOTHING && Inv(s.db)
    requires Legal(Opened(s), es) && WhileAlive(es) && Depth(es) > 0 && AllReporting(es)
    ensures var r := Run(Opened(s), es); Accounted(s.db, r.db, r.pending)
  {
    if es == [] {
      assert NewIds(s.db, 0) == [];
    } else {
      var n := |es| - 1;
      var shorter := es[..n];
      assert forall i | 0 <= i < n :: shorter[..i] == es[..i];
      assert Depth(es[..n]) > 0;
      TransactionIsAccounted(s, shorter);
      DuringTransaction(s, shorter);
      if es[n].Do? {
        OperationIsAccounted(s.db, Run(Opened(s), shorter), es[n].op);
      }
    }
  }

  // ----- no photo is named without cause -----

  function TouchedByAll(db: DB, ops: seq<DbOperation>): set<int> {
    if ops == [] then {}
    else TouchedByAll(db, ops[..|ops| - 1]) + Touched(AppliedAll(db, ops[..|ops| - 1]), ops[|ops| - 1])
  }

  lemma {:induction false} OneTouched(s: State, op: DbOperation)
    requires Enabled(s, Do(op)) && s.transaction.Some? && HandlesAlive(s)
    ensures Step(s, Do(op)).pending.modified == s.pending.modified + Touched(s.db, op)
  {
    match op
    case AddGroup(p, _) =>
      FoundedIsTouched(p, s.db.nextGroup);
    case RemoveGroup(g) =>
      if g.Valid? && g.value in s.db.groups {
        ClearedAreThoseInGroup(s.db, g.value);
      }
    case _ =>
  }

  /** Until its end, a transaction has pending as modified exactly the photos its operations touched. */
  lemma {:induction false} ModifiedAreTheTouched(s: State, es: seq<Event>)
    requires s.transaction.None? && s.pending == NOTHING
    requires Legal(Opened(s), es) && WhileAlive(es) && Depth(es) > 0
    ensures Run(Opened(s), es).pending.modified == TouchedByAll(s.db, Operations(es))
  {
    if es != [] {
      var n := |es| - 1;
      var shorter := es[..n];
      assert forall i | 0 <= i < n :: shorter[..i] == es[..i];
      assert Depth(es[..n]) > 0;
      ModifiedAreTheTouched(s, shorter);
      DuringTransaction(s, shorter);
      if es[n].Do? {
        OneTouched(Run(Opened(s), shorter), es[n].op);
      } else {
        assert Operations(es) == Operations(shorter);
      }
    }
  }

  // ----- the signals of a commit -----

  /** A committed transaction of reporting operations emits at most two signals, one of each kind:
      the added photos are exactly those the snapshot did not have, in order and without repetition,
      the modified ones are exactly those the operations touched, and every photo whose data or flags
      changed is named. */
  lemma {:induction false} CommitSignals(s: State, es: seq<Event>)
    requires s.transaction.None? && s.pending == NOTHING && Inv(s.db)
    requires es != [] && es[|es| - 1] == Release && Abort !in es
    requires Legal(Opened(s), es) && WhileAlive(es) && Depth(es) == 0 && AllReporting(es)
    ensures var r, modified := Run(Opened(s), es), TouchedByAll(s.db, Operations(es));
      && r.signals == s.signals + AtMostTwo(NewPhotos(s.db, r.db), modified)
      && Inv(r.db) && (forall p :: p in NewPhotos(s.db, r.db) <==> p in r.db.photos && p !in s.db.photos)
      && (forall p | Changed(s.db, r.db, p) :: p in modified || p in NewPhotos(s.db, r.db))
  {
    var before := Run(Opened(s), es[..|es| - 1]);
    BeforeLastRelease(es);
    TransactionIsAccounted(s, es[..|es| - 1]);
    ModifiedAreTheTouched(s, es[..|es| - 1]);
    TransactionEnds(s, es);
    DuringTransaction(s, es[..|es| - 1]);
    FiredOfAccounted(s.db, before.db, before.pending);
  }

  /** The ids from the snapshot's counter to the present one, in order and without repetition. */
  function NewPhotos(saved: DB, db: DB): seq<int> {
    if saved.nextPhoto <= db.nextPhoto then NewIds(saved, db.nextPhoto - saved.nextPhoto) else []
  }

  lemma {:induction false} FiredOfAccounted(saved: DB, db: DB, pending: Pending)
    requires Accounted(saved, db, pending)
    ensures Fired(pending) == AtMostTwo(NewPhotos(saved, db), pending.modified)
    ensures forall p :: p in NewPhotos(saved, db) <==> p in db.photos && p !in saved.photos
    ensures forall p | Changed(saved, db, p) :: p in pending.modified || p in NewPhotos(saved, db)
  {
    assert Raised(pending) == pending;
    var ids := NewPhotos(saved, db);
    forall p | p in db.photos && p !in saved.photos
      ensures p in ids
    {
      assert ids[p - saved.nextPhoto] == p;
    }
  }

  /** setPHash is the exception: it changes the stored photo and leaves what is pending as it was. */
  lemma {:induction false} SetPHashIsSilent(s: State, photo: int, phash: Id)
    requires photo in s.db.photos
    ensures var r := Step(s, Do(SetPHash(photo, phash)));
      && r.pending == s.pending && r.signals == s.signals
      && (Changed(s.db, r.db, photo) <==> s.db.photos[photo].phash != phash)
  {
    assert s.db.photos[photo] == s.db.photos[photo].(phash := s.db.photos[photo].phash);
  }

  /** Outside transactions nothing is ever pending, so the theorems above apply wherever a run opens one. */
  lemma {:induction false} NothingPendingOutside(es: seq<Event>)
    requires Legal(INITIAL, es)
    ensures NothingLeft(Run(INITIAL, es))
  {
    if es != [] {
      NothingPendingOutside(es[..|es| - 1]);
      StepLeavesNothing(Run(INITIAL, es[..|es| - 1]), es[|es| - 1]);
    }
  }

  predicate NothingLeft(s: State) {
    HandlesAlive(s) && (s.transaction.None? ==> s.pending == NOTHING)
  }

  lemma {:induction false} StepLeavesNothing(s: State, e: Event)
    requires Enabled(s, e) && NothingLeft(s)
    ensures NothingLeft(Step(s, e))
  {
    if e.Do? && s.transaction.Some? {
      OperationInside(s, e.op);
    } else if e.Do? {
      OperationOutside(s, e.op);
    }
  }
}
