/** The in-memory backend: transaction handles sharing one snapshot, and the operations, each of
    which opens a handle of its own where the source does. */
module InMemoryBackend {
  import opened Wrappers
  import opened PhotoData
  import opened ContainersUtils
  import opened ChangeLog
  import opened Database
  import opened Notifications
  import People = PeopleInfo

  // ----- the state and the steps -----

  /** The shared transaction: the state saved when it was opened, the abort flag, and how many
      handles are alive. */
  datatype Transaction = Transaction(saved: DB, aborted: bool, handles: nat)

  datatype State = State(db: DB, pending: Pending, transaction: Option<Transaction>, signals: seq<Signal>)

  const INITIAL := State(EMPTY_DB, NOTHING, None, [])

  /** A new handle: of the running transaction, or of a new one. */
  function Opened(s: State): (r: State)
    ensures r.transaction.Some?
  {
    match s.transaction
    case None => s.(transaction := Some(Transaction(s.db, false, 1)))
    case Some(t) => s.(transaction := Some(t.(handles := t.handles + 1)))
  }

  function Aborted(s: State): State
    requires s.transaction.Some?
  {
    s.(transaction := Some(s.transaction.value.(aborted := true)))
  }

  /** A handle is released; with the last one the transaction rolls back or commits. */
  function Released(s: State): State
    requires s.transaction.Some?
  {
    var t := s.transaction.value;
    if t.handles > 1 then s.(transaction := Some(t.(handles := t.handles - 1)))
    else if t.aborted then State(t.saved, NOTHING, None, s.signals)
    else State(s.db, NOTHING, None, s.signals + Fired(s.pending))
  }

  /** An operation within a handle of its own. */
  function Within(s: State, db: DB, pending: Pending): State {
    Released(Opened(s).(db := db, pending := pending))
  }

  /** The photos are inserted, and their ids pending. */
  function WithAdded(s: State, deltas: seq<Delta>): State {
    s.(db := AllAdded(s.db, deltas), pending := s.pending.(added := s.pending.added + NewIds(s.db, |deltas|)))
  }

  function AfterAddPhotos(s: State, deltas: seq<Delta>): State {
    Released(WithAdded(Opened(s), deltas))
  }

  function AfterUpdate(s: State, deltas: seq<Delta>): State {
    Within(s, AllUpdated(s.db, deltas), s.pending.(modified := s.pending.modified + IdsOf(deltas)))
  }

  function AfterSet(s: State, photo: int, name: string, value: int): State {
    Within(s, FlagSet(s.db, photo, name, value), s.pending.(modified := s.pending.modified + {photo}))
  }

  function AfterAddGroup(s: State, photo: int, kind: GroupType): State {
    AfterUpdate(s.(db := GroupFounded(s.db, photo, kind)), [RepresentativeDelta(photo, s.db.nextGroup)])
  }

  function AfterRemoveGroup(s: State, gid: Id): State {
    if gid.Valid? && gid.value in s.db.groups then
      AfterUpdate(s.(db := GroupDropped(s.db, gid.value)), Clearings(PhotosToClear(s.db, gid.value)))
    else s
  }

  // ----- the objects -----

  /** The transaction object behind the shared handles. */
  class TransactionWrapper {
    const savedState: DB
    var abort: bool
    var useCount: nat

    constructor (db: DB)
      ensures savedState == db && !abort && useCount == 1
    {
      savedState, abort, useCount := db, false, 1;
    }
  }

  class MemoryBackend {
    var db: DB
    const notifications: NotificationsAccumulator
    /** The manager's weak pointer; null once the last handle is gone. */
    var transaction: TransactionWrapper?

    ghost function Footprint(): set<object>
      reads this
    {
      {this, notifications} + (if transaction == null then {} else {transaction})
    }

    ghost predicate Valid()
      reads this, Footprint()
    {
      Inv(db) && (transaction != null ==> transaction.useCount > 0 && Inv(transaction.savedState))
    }

    ghost function View(): State
      reads this, Footprint()
    {
      State(
        db, notifications.View(),
        if transaction == null then None
        else Some(Transaction(transaction.savedState, transaction.abort, transaction.useCount)),
        notifications.emitted)
    }

    constructor ()
      ensures Valid() && fresh(Footprint()) && View() == INITIAL
    {
      db := EMPTY_DB;
      transaction := null;
      notifications := new NotificationsAccumulator();
    }

    method OpenTransaction() returns (handle: TransactionWrapper)
      requires Valid()
      modifies Footprint()
      ensures Valid() && fresh(Footprint() - old(Footprint()))
      ensures handle == transaction && View() == Opened(old(View()))
      ensures db == old(db)
    {
      if transaction == null {
        var created := new TransactionWrapper(db);
        transaction := created;
        handle := created;
      } else {
        handle := transaction;
        handle.useCount := handle.useCount + 1;
      }
    }

    method Abort(handle: TransactionWrapper)
      requires Valid() && handle == transaction
      modifies Footprint()
      ensures Valid() && Footprint() == old(Footprint())
      ensures View() == Aborted(old(View()))
    {
      handle.abort := true;
    }

    /** Dropping a handle; the destructor of the transaction runs with the last one. */
    method Release(handle: TransactionWrapper)
      requires Valid() && handle == transaction
      modifies Footprint()
      ensures Valid() && Footprint() <= old(Footprint())
      ensures View() == Released(old(View()))
    {
      handle.useCount := handle.useCount - 1;
      if handle.useCount == 0 {
        if handle.abort {
          db := handle.savedState;
          notifications.IgnoreChanges();
        } else {
          notifications.FireChanges();
        }
        transaction := null;
      }
    }

    // ----- operations -----

    /** The deltas receive their ids in place. */
    method AddPhotos(photos: array<Delta>)
      requires Valid() && forall i | 0 <= i < photos.Length :: photos[i].id.Invalid?
      modifies Footprint(), photos
      ensures Valid() && fresh(Footprint() - old(Footprint()))
      ensures View() == AfterAddPhotos(old(View()), old(photos[..]))
      ensures photos[..] == Numbered(old(photos[..]), old(db.nextPhoto))
    {
      var tr := OpenTransaction();
      InsertAndReport(photos);
      assert View() == WithAdded(Opened(old(View())), old(photos[..]));
      Release(tr);
    }

    method InsertAndReport(photos: array<Delta>)
      requires Valid()
      modifies this`db, notifications, photos
      ensures Valid() && Footprint() == old(Footprint())
      ensures View() == WithAdded(old(View()), old(photos[..]))
      ensures photos[..] == Numbered(old(photos[..]), old(db.nextPhoto))
    {
      AddedInv(db, photos[..]);
      var ids := InsertAll(photos);
      notifications.AddPhotos(ids);
    }

    method InsertAll(photos: array<Delta>) returns (ids: seq<int>)
      requires Inv(db)
      modifies this`db, photos
      ensures db == AllAdded(old(db), old(photos[..]))
      ensures ids == NewIds(old(db), photos.Length)
      ensures photos[..] == Numbered(old(photos[..]), old(db.nextPhoto))
    {
      ghost var deltas := photos[..];
      ghost var start := db;
      ids := [];
      for i := 0 to photos.Length
        invariant Inserted(start, deltas, i, photos[..], ids, db)
      {
        OneMoreInserted(start, deltas, i, photos[..], ids, db);
        var id := InsertAt(photos, i);
        ids := ids + [id];
      }
      assert deltas[..photos.Length] == deltas && deltas[photos.Length..] == [];
    }

    method InsertAt(photos: array<Delta>, i: nat) returns (id: int)
      requires i < photos.Length && db.nextPhoto !in db.photos
      modifies this`db, photos
      ensures id == old(db.nextPhoto) && db == PhotoAdded(old(db), old(photos[..])[i].(id := PhotoData.Valid(id)))
      ensures photos[..] == old(photos[..])[i := old(photos[..])[i].(id := PhotoData.Valid(id))]
    {
      id := db.nextPhoto;
      photos[i] := photos[i].(id := PhotoData.Valid(id));
      AddPhoto(photos[i]);
    }

    method AddPhoto(delta: Delta)
      requires db.nextPhoto !in db.photos
      modifies this`db
      ensures db == PhotoAdded(old(db), delta)
    {
      var id := db.nextPhoto;
      assert id !in db.photos;
      db := db.(photos := db.photos[id := Filled(delta)]);
      if delta.people.Some? {
        var people := delta.people.value;
        ghost var inserted := db;
        for j := 0 to |people|
          invariant db == PeopleAdded(inserted, id, people[..j])
        {
          assert people[..j + 1][..j] == people[..j];
          var personId := StoreName(people[j].nameId, people[j].name);
          var _ := StorePerson(PersonInfo(Invalid, personId, PhotoData.Valid(id), Invalid, people[j].position));
        }
        assert people[..|people|] == people;
      }
      db := db.(nextPhoto := id + 1);
    }

    method StoreName(nameId: Id, name: string) returns (id: Id)
      modifies this`db
      ensures (db, id) == NameStored(old(db), nameId, name)
    {
      id := nameId;
      if id.Valid? {
        if id.value !in db.names {
          id := Invalid;
        } else {
          db := db.(names := db.names[id.value := name]);
        }
      } else {
        var namesakes := NamesakesOf(db, name);
        if namesakes == {} {
          id := PhotoData.Valid(db.nextName);
          db := db.(names := db.names[db.nextName := name], nextName := db.nextName + 1);
        } else {
          id := PhotoData.Valid(Least(namesakes));
        }
      }
    }

    method StorePerson(fd: PersonInfo) returns (id: Id)
      modifies this`db
      ensures (db, id) == PersonStored(old(db), fd)
    {
      var people: People.Table;
      people, id := People.Store(db.people, fd);
      db := db.(people := people);
    }

    method Update(deltas: seq<Delta>)
      requires Valid() && AllStored(db, deltas)
      modifies Footprint()
      ensures Valid() && fresh(Footprint() - old(Footprint()))
      ensures View() == AfterUpdate(old(View()), deltas)
    {
      var tr := OpenTransaction();
      var ids := ReplaceAll(deltas);
      notifications.ModifyPhotos(ids);
      Release(tr);
    }

    method ReplaceAll(deltas: seq<Delta>) returns (ids: set<int>)
      requires Inv(db) && AllStored(db, deltas)
      modifies this`db
      ensures db == AllUpdated(old(db), deltas) && Inv(db) && ids == IdsOf(deltas)
    {
      ghost var start := db;
      ids := {};
      for i := 0 to |deltas|
        invariant db == AllUpdated(start, deltas[..i]) && ids == IdsOf(deltas[..i])
      {
        UpdatedRows(start, deltas[..i]);
        OneMoreUpdated(start, deltas, i);
        var id := deltas[i].id.value;
        var log := StoreDifference(db.log, id, db.photos[id], deltas[i]);
        db := db.(log := log, photos := db.photos[id := Filled(deltas[i])]);
        ids := ids + {id};
      }
      UpdatedRows(start, deltas);
      assert deltas[..|deltas|] == deltas;
    }

    method Set(photo: int, name: string, value: int)
      requires Valid()
      modifies Footprint()
      ensures Valid() && fresh(Footprint() - old(Footprint()))
      ensures View() == AfterSet(old(View()), photo, name, value)
    {
      var tr := OpenTransaction();
      db := FlagSet(db, photo, name, value);
      notifications.ModifyPhotos({photo});
      Release(tr);
    }

    /** The hash is replaced without a transaction and without a notification. */
    method SetPHash(photo: int, phash: Id)
      requires Valid()
      modifies this`db
      ensures Valid() && View() == old(View()).(db := PHashSet(old(db), photo, phash))
    {
      if photo in db.photos {
        db := db.(photos := db.photos[photo := db.photos[photo].(phash := phash)]);
      }
    }

    method WriteBlob(photo: int, kind: string, blob: string)
      requires Valid()
      modifies this`db
      ensures Valid() && View() == old(View()).(db := BlobWritten(old(db), photo, kind, blob))
    {
      db := db.(blobs := db.blobs[(photo, kind) := blob]);
    }

    method AddGroup(photo: int, kind: GroupType) returns (gid: int)
      requires Valid() && photo in db.photos
      modifies Footprint()
      ensures Valid() && fresh(Footprint() - old(Footprint()))
      ensures View() == AfterAddGroup(old(View()), photo, kind) && gid == old(db.nextGroup)
    {
      gid := db.nextGroup;
      FoundedInv(db, photo, kind);
      db := db.(nextGroup := gid + 1, groups := db.groups[gid := (photo, kind)]);
      assert View() == old(View()).(db := GroupFounded(old(db), photo, kind));
      Update([RepresentativeDelta(photo, gid)]);
    }

    /** Clears the group of every photo in it and returns the representative. */
    method RemoveGroup(gid: Id) returns (representative: Id)
      requires Valid()
      modifies Footprint()
      ensures Valid() && fresh(Footprint() - old(Footprint()))
      ensures View() == AfterRemoveGroup(old(View()), gid)
      ensures representative == GroupRemoved(old(db), gid).1
    {
      representative := Invalid;
      if gid.Valid? && gid.value in db.groups {
        var photos := PhotosToClear(db, gid.value);
        SameRepresentative(db, GroupDropped(db, gid.value), photos);
        DroppedInv(db, gid.value);
        db := db.(groups := db.groups - {gid.value});
        assert View() == old(View()).(db := GroupDropped(old(db), gid.value));
        representative := LastRepresentative(photos);
        Update(Clearings(photos));
      }
    }

    method LastRepresentative(photos: seq<int>) returns (representative: Id)
      requires forall i | 0 <= i < |photos| :: photos[i] in db.photos
      ensures representative == RepresentativeAmong(db, photos)
    {
      representative := Invalid;
      for i := 0 to |photos|
        invariant representative == RepresentativeAmong(db, photos[..i])
      {
        assert photos[..i + 1][..i] == photos[..i];
        if db.photos[photos[i]].group.role == Representative {
          representative := PhotoData.Valid(photos[i]);
        }
      }
      assert photos[..|photos|] == photos;
    }

    /** The group of every representative, in photo order. */
    method ListGroups() returns (groups: seq<Id>)
      requires Valid()
      ensures groups == GroupsListed(db, InOrder(db.photos.Keys))
    {
      var photos := InOrder(db.photos.Keys);
      groups := [];
      for i := 0 to |photos|
        invariant groups == GroupsListed(db, photos[..i])
      {
        assert photos[..i + 1][..i] == photos[..i];
        assert photos[i] in photos;
        var row := db.photos[photos[i]];
        if row.group.role == Representative {
          groups := groups + [row.group.groupId];
        }
      }
      assert photos[..|photos|] == photos;
    }
  }

  /** Who represents a group is told by the photos, not by the group table. */
  lemma {:induction false} SameRepresentative(db: DB, db': DB, photos: seq<int>)
    requires db'.photos == db.photos && forall i | 0 <= i < |photos| :: photos[i] in db.photos
    ensures RepresentativeAmong(db', photos) == RepresentativeAmong(db, photos)
  {
    if photos != [] {
      SameRepresentative(db, db', photos[..|photos| - 1]);
    }
  }

  /** Where adding photos stands after the first `i` of them. */
  ghost predicate Inserted(start: DB, deltas: seq<Delta>, i: nat, photos: seq<Delta>, ids: seq<int>, db: DB) {
    && i <= |deltas| && Inv(start) && db == AllAdded(start, deltas[..i]) && ids == NewIds(start, i)
    && photos == Numbered(deltas[..i], start.nextPhoto) + deltas[i..]
  }

  lemma {:induction false} OneMoreInserted(start: DB, deltas: seq<Delta>, i: nat, photos: seq<Delta>, ids: seq<int>,
      db: DB)
    requires i < |deltas| && Inserted(start, deltas, i, photos, ids, db)
    ensures db.nextPhoto !in db.photos && |photos| == |deltas|
    ensures
      var numbered := photos[i].(id := Valid(db.nextPhoto));
      Inserted(start, deltas, i + 1, photos[i := numbered], ids + [db.nextPhoto], PhotoAdded(db, numbered))
  {
    OneMoreAdded(start, deltas, i);
    OneMoreNumbered(deltas, start.nextPhoto, i);
    assert NewIds(start, i + 1) == NewIds(start, i) + [start.nextPhoto + i];
  }

  lemma {:induction false} OneMoreNumbered(deltas: seq<Delta>, first: int, i: nat)
    requires i < |deltas|
    ensures
      var before := Numbered(deltas[..i], first) + deltas[i..];
      && before[i] == deltas[i]
      && before[i := deltas[i].(id := Valid(first + i))] == Numbered(deltas[..i + 1], first) + deltas[i + 1..]
  {
    assert deltas[..i + 1] == deltas[..i] + [deltas[i]];
  }

  lemma {:induction false} OneMoreAdded(db: DB, deltas: seq<Delta>, i: nat)
    requires Inv(db) && i < |deltas|
    ensures var before := AllAdded(db, deltas[..i]);
      && before.nextPhoto == db.nextPhoto + i && before.nextPhoto !in before.photos
      && AllAdded(db, deltas[..i + 1]) == PhotoAdded(before, deltas[i].(id := Valid(before.nextPhoto)))
  {
    assert deltas[..i + 1][..i] == deltas[..i];
    AddedRows(db, deltas[..i]);
  }

  lemma {:induction false} OneMoreUpdated(db: DB, deltas: seq<Delta>, i: nat)
    requires i < |deltas|
    ensures AllUpdated(db, deltas[..i + 1]) == Updated(AllUpdated(db, deltas[..i]), deltas[i])
    ensures deltas[i].id.Valid? ==> IdsOf(deltas[..i + 1]) == IdsOf(deltas[..i]) + {deltas[i].id.value}
  {
    assert deltas[..i + 1] == deltas[..i] + [deltas[i]] && deltas[..i + 1][..i] == deltas[..i];
  }

  lemma {:induction false} UpdatedOnce(db: DB, delta: Delta)
    ensures AllUpdated(db, [delta]) == Updated(db, delta)
  {
    assert [delta][..0] == [];
    assert AllUpdated(db, [delta][..0]) == db;
  }

  /** The database part of the operations on groups. */
  lemma {:induction false} GroupOperationsOnDb(s: State, photo: int, kind: GroupType, gid: Id)
    requires s.transaction.Some? ==> s.transaction.value.handles > 0
    ensures AfterAddGroup(s, photo, kind).db == GroupAdded(s.db, photo, kind)
    ensures AfterRemoveGroup(s, gid).db == GroupRemoved(s.db, gid).0
  {
    UpdatedOnce(GroupFounded(s.db, photo, kind), RepresentativeDelta(photo, s.db.nextGroup));
  }
}
