/** The contents of the in-memory database and what each operation does to them. */
module Database {
  import opened Wrappers
  import opened PhotoData
  import opened ContainersUtils
  import opened ChangeLog
  import People = PeopleInfo

  datatype DB = DB(
    photos: map<int, Row>,
    flags: map<int, map<string, int>>,
    groups: map<int, (int, GroupType)>,
    names: map<int, string>,
    people: People.Table,
    log: Log,
    blobs: map<(int, string), string>,
    nextPhoto: int,
    nextName: int,
    nextGroup: int)

  const EMPTY_DB := DB(map[], map[], map[], map[], People.Table(map[], 0), [], map[], 0, 0, 0)

  /** Photo ids are exactly those given out; group and name ids are below their counters. */
  ghost predicate Inv(db: DB) {
    && (forall p :: p in db.photos <==> 0 <= p < db.nextPhoto)
    && (forall g | g in db.groups :: 0 <= g < db.nextGroup)
    && NamesInv(db)
    && 0 <= db.nextPhoto && 0 <= db.nextGroup
  }

  ghost predicate NamesInv(db: DB) {
    0 <= db.nextName && forall n | n in db.names :: 0 <= n < db.nextName
  }

  // ----- people -----

  function NamesakesOf(db: DB, name: string): set<int> {
    set n | n in db.names && db.names[n] == name
  }

  /** store(PersonName): rename a known id, or find the first person of that name, or add one. */
  function NameStored(db: DB, id: Id, name: string): (DB, Id) {
    if id.Valid? then
      if id.value in db.names then (db.(names := db.names[id.value := name]), id) else (db, Invalid)
    else if NamesakesOf(db, name) == {} then
      (db.(names := db.names[db.nextName := name], nextName := db.nextName + 1), Valid(db.nextName))
    else (db, Valid(Least(NamesakesOf(db, name))))
  }

  function PersonStored(db: DB, fd: PersonInfo): (DB, Id) {
    var r := People.Stored(db.people, fd);
    (db.(people := r.0), r.1)
  }

  /** A person of a new photo; the backend keeps no fingerprints, so their ids are invalid. */
  function PersonAdded(db: DB, photo: int, person: PersonFullInfo): DB {
    var named := NameStored(db, person.nameId, person.name);
    PersonStored(named.0, PersonInfo(Invalid, named.1, Valid(photo), Invalid, person.position)).0
  }

  function PeopleAdded(db: DB, photo: int, people: seq<PersonFullInfo>): DB {
    if people == [] then db
    else PersonAdded(PeopleAdded(db, photo, people[..|people| - 1]), photo, people[|people| - 1])
  }

  // ----- photos -----

  function PhotoAdded(db: DB, delta: Delta): DB {
    var id := db.nextPhoto;
    var inserted := db.(photos := db.photos[id := Filled(delta)]);
    var peopled := if delta.people.Some? then PeopleAdded(inserted, id, delta.people.value) else inserted;
    peopled.(nextPhoto := id + 1)
  }

  function AllAdded(db: DB, deltas: seq<Delta>): DB {
    if deltas == [] then db else PhotoAdded(AllAdded(db, deltas[..|deltas| - 1]), deltas[|deltas| - 1])
  }

  /** The ids given to `n` photos added to `db`. */
  function NewIds(db: DB, n: nat): (r: seq<int>)
    ensures |r| == n && forall i | 0 <= i < n :: r[i] == db.nextPhoto + i
  {
    seq(n, i => db.nextPhoto + i)
  }

  /** One element of update: log the difference, then replace the whole stored row. The source has no
      behaviour for a photo that is not there; here nothing happens, and callers exclude it. */
  function Updated(db: DB, delta: Delta): DB {
    if delta.id.Valid? && delta.id.value in db.photos then
      var id := delta.id.value;
      db.(log := db.log + Difference(id, db.photos[id], delta), photos := db.photos[id := Filled(delta)])
    else db
  }

  function AllUpdated(db: DB, deltas: seq<Delta>): DB {
    if deltas == [] then db else Updated(AllUpdated(db, deltas[..|deltas| - 1]), deltas[|deltas| - 1])
  }

  predicate AllStored(db: DB, deltas: seq<Delta>) {
    forall i | 0 <= i < |deltas| :: deltas[i].id.Valid? && deltas[i].id.value in db.photos
  }

  function IdsOf(deltas: seq<Delta>): set<int> {
    set d | d in deltas && d.id.Valid? :: d.id.value
  }

  function FlagSet(db: DB, photo: int, name: string, value: int): DB {
    var flags := if photo in db.flags then db.flags[photo] else map[];
    db.(flags := db.flags[photo := flags[name := value]])
  }

  function PHashSet(db: DB, photo: int, phash: Id): DB {
    if photo in db.photos then db.(photos := db.photos[photo := db.photos[photo].(phash := phash)]) else db
  }

  function BlobWritten(db: DB, photo: int, kind: string, blob: string): DB {
    db.(blobs := db.blobs[(photo, kind) := blob])
  }

  // ----- groups -----

  function RepresentativeDelta(photo: int, group: int): Delta {
    EmptyDelta(Valid(photo)).(group := Some(GroupInfo(Valid(group), Representative)))
  }

  function ClearingDelta(photo: int): Delta {
    EmptyDelta(Valid(photo)).(group := Some(NO_GROUP))
  }

  /** The group table with a new group, and without one; the photos are seen to afterwards. */
  function GroupFounded(db: DB, photo: int, kind: GroupType): DB {
    db.(nextGroup := db.nextGroup + 1, groups := db.groups[db.nextGroup := (photo, kind)])
  }

  function GroupDropped(db: DB, g: int): DB {
    db.(groups := db.groups - {g})
  }

  function GroupAdded(db: DB, photo: int, kind: GroupType): DB {
    Updated(GroupFounded(db, photo, kind), RepresentativeDelta(photo, db.nextGroup))
  }

  predicate InGroup(row: Row, g: int) {
    row.group.role != Alone && row.group.groupId == Valid(g)
  }

  function PhotosIn(db: DB, g: int): set<int> {
    set p | p in db.photos && InGroup(db.photos[p], g)
  }

  /** The last representative among the listed photos. */
  function RepresentativeAmong(db: DB, photos: seq<int>): Id
    requires forall i | 0 <= i < |photos| :: photos[i] in db.photos
  {
    if photos == [] then Invalid
    else
      var last := photos[|photos| - 1];
      if db.photos[last].group.role == Representative then Valid(last)
      else RepresentativeAmong(db, photos[..|photos| - 1])
  }

  function Clearings(photos: seq<int>): (r: seq<Delta>)
    ensures |r| == |photos| && forall i | 0 <= i < |r| :: r[i] == ClearingDelta(photos[i])
  {
    seq(|photos|, i requires 0 <= i < |photos| => ClearingDelta(photos[i]))
  }

  /** The photos of a group in id order. */
  function PhotosToClear(db: DB, g: int): (r: seq<int>)
    ensures forall p :: p in r <==> p in PhotosIn(db, g)
    ensures forall i | 0 <= i < |r| :: r[i] in db.photos
    ensures Ascending(r)
  {
    InOrderAscends(PhotosIn(db, g));
    var r := InOrder(PhotosIn(db, g));
    assert forall i | 0 <= i < |r| :: r[i] in r;
    r
  }

  function GroupRemoved(db: DB, gid: Id): (DB, Id) {
    if gid.Valid? && gid.value in db.groups then
      var photos := PhotosToClear(db, gid.value);
      (AllUpdated(GroupDropped(db, gid.value), Clearings(photos)), RepresentativeAmong(db, photos))
    else (db, Invalid)
  }

  /** listGroups: the group of every representative, in photo order. */
  function GroupsListed(db: DB, photos: seq<int>): seq<Id>
    requires forall i | 0 <= i < |photos| :: photos[i] in db.photos
  {
    if photos == [] then []
    else
      var row := db.photos[photos[|photos| - 1]];
      GroupsListed(db, photos[..|photos| - 1]) + (if row.group.role == Representative then [row.group.groupId] else [])
  }

  // ----- frames and the invariant -----

  lemma {:induction false} PeopleFrame(db: DB, photo: int, people: seq<PersonFullInfo>)
    ensures var r := PeopleAdded(db, photo, people);
      r == db.(names := r.names, people := r.people, nextName := r.nextName)
    ensures NamesInv(db) ==> NamesInv(PeopleAdded(db, photo, people))
  {
    if people != [] {
      PeopleFrame(db, photo, people[..|people| - 1]);
      PersonFrame(PeopleAdded(db, photo, people[..|people| - 1]), photo, people[|people| - 1]);
    }
  }

  lemma {:induction false} PersonFrame(db: DB, photo: int, person: PersonFullInfo)
    ensures var r := PersonAdded(db, photo, person);
      r == db.(names := r.names, people := r.people, nextName := r.nextName) && (NamesInv(db) ==> NamesInv(r))
  {
  }

  /** The deltas with the ids given to them. */
  function Numbered(deltas: seq<Delta>, first: int): (r: seq<Delta>)
    ensures |r| == |deltas| && forall i | 0 <= i < |r| :: r[i] == deltas[i].(id := Valid(first + i))
  {
    seq(|deltas|, i requires 0 <= i < |deltas| => deltas[i].(id := Valid(first + i)))
  }

  /** Adding photos: the new rows are the filled deltas at the next ids; other rows, the log, flags,
      groups and blobs stay. */
  lemma {:induction false} AddedRows(db: DB, deltas: seq<Delta>)
    requires Inv(db)
    ensures var r := AllAdded(db, deltas);
      && Inv(r) && r.nextPhoto == db.nextPhoto + |deltas|
      && r == db.(photos := r.photos, names := r.names, people := r.people, nextName := r.nextName,
                  nextPhoto := r.nextPhoto)
      && (forall p | p in db.photos :: p in r.photos && r.photos[p] == db.photos[p])
      && (forall i | 0 <= i < |deltas| :: RowIs(r, db.nextPhoto + i, Filled(deltas[i])))
  {
    AddedFrame(db, deltas);
    OldRows(db, deltas);
    NewRows(db, deltas);
  }

  lemma {:induction false} AddedFrame(db: DB, deltas: seq<Delta>)
    requires Inv(db)
    ensures var r := AllAdded(db, deltas);
      && Inv(r) && r.nextPhoto == db.nextPhoto + |deltas|
      && r == db.(photos := r.photos, names := r.names, people := r.people, nextName := r.nextName,
                  nextPhoto := r.nextPhoto)
  {
    if deltas != [] {
      var n := |deltas| - 1;
      AddedFrame(db, deltas[..n]);
      PhotoAddedRow(AllAdded(db, deltas[..n]), deltas[n]);
    }
  }

  lemma {:induction false} OldRows(db: DB, deltas: seq<Delta>)
    requires Inv(db)
    ensures var r := AllAdded(db, deltas); forall p | p in db.photos :: p in r.photos && r.photos[p] == db.photos[p]
  {
    if deltas != [] {
      var n := |deltas| - 1;
      OldRows(db, deltas[..n]);
      AddedFrame(db, deltas[..n]);
      PhotoAddedRow(AllAdded(db, deltas[..n]), deltas[n]);
    }
  }

  lemma {:induction false} NewRows(db: DB, deltas: seq<Delta>)
    requires Inv(db)
    ensures var r := AllAdded(db, deltas); forall i | 0 <= i < |deltas| :: RowIs(r, db.nextPhoto + i, Filled(deltas[i]))
  {
    if deltas != [] {
      var n := |deltas| - 1;
      var before := AllAdded(db, deltas[..n]);
      NewRows(db, deltas[..n]);
      AddedFrame(db, deltas[..n]);
      PhotoAddedRow(before, deltas[n]);
      forall i | 0 <= i < n
        ensures RowIs(before, db.nextPhoto + i, Filled(deltas[i]))
      {
        assert deltas[..n][i] == deltas[i];
      }
    }
  }

  lemma {:induction false} AddedInv(db: DB, deltas: seq<Delta>)
    requires Inv(db)
    ensures Inv(AllAdded(db, deltas))
  {
    AddedRows(db, deltas);
  }

  lemma {:induction false} PhotoAddedRow(db: DB, delta: Delta)
    requires Inv(db)
    ensures var r := PhotoAdded(db, delta);
      && Inv(r) && r.nextPhoto == db.nextPhoto + 1
      && r == db.(photos := db.photos[db.nextPhoto := Filled(delta)], names := r.names, people := r.people,
                  nextName := r.nextName, nextPhoto := r.nextPhoto)
  {
    var inserted := db.(photos := db.photos[db.nextPhoto := Filled(delta)]);
    if delta.people.Some? {
      PeopleFrame(inserted, db.nextPhoto, delta.people.value);
    }
  }

  /** Updating touches the rows named by the deltas and the log, and nothing else. */
  lemma {:induction false} UpdatedRows(db: DB, deltas: seq<Delta>)
    ensures var r := AllUpdated(db, deltas);
      && r == db.(photos := r.photos, log := r.log) && r.photos.Keys == db.photos.Keys
      && (forall p | p in db.photos && p !in IdsOf(deltas) :: r.photos[p] == db.photos[p])
    ensures Inv(db) ==> Inv(AllUpdated(db, deltas))
  {
    if deltas != [] {
      var n := |deltas| - 1;
      assert deltas == deltas[..n] + [deltas[n]];
      UpdatedRows(db, deltas[..n]);
      UpdatedFrame(AllUpdated(db, deltas[..n]), deltas[n]);
    }
  }

  lemma {:induction false} UpdatedFrame(db: DB, delta: Delta)
    ensures var r := Updated(db, delta);
      && r == db.(photos := r.photos, log := r.log) && r.photos.Keys == db.photos.Keys
      && (forall p | p in db.photos && delta.id != Valid(p) :: r.photos[p] == db.photos[p])
    ensures Inv(db) ==> Inv(Updated(db, delta))
  {
  }

  lemma {:induction false} KeysKept(db: DB, deltas: seq<Delta>)
    ensures forall p :: p in AllUpdated(db, deltas).photos <==> p in db.photos
  {
    if deltas != [] {
      KeysKept(db, deltas[..|deltas| - 1]);
    }
  }

  /** The last delta that names a photo decides its row. */
  lemma {:induction false} UpdatedRow(db: DB, deltas: seq<Delta>, i: nat)
    requires i < |deltas| && deltas[i].id.Valid? && deltas[i].id.value in db.photos
    requires forall j | i < j < |deltas| :: deltas[j].id != deltas[i].id
    ensures RowIs(AllUpdated(db, deltas), deltas[i].id.value, Filled(deltas[i]))
  {
    var n := |deltas| - 1;
    KeysKept(db, deltas[..n]);
    var before := AllUpdated(db, deltas[..n]);
    if i < n {
      assert deltas[..n][i] == deltas[i];
      UpdatedRow(db, deltas[..n], i);
    }
  }

  ghost predicate RowIs(db: DB, photo: int, row: Row) {
    photo in db.photos && db.photos[photo] == row
  }

  lemma {:induction false} FoundedInv(db: DB, photo: int, kind: GroupType)
    requires Inv(db)
    ensures Inv(GroupFounded(db, photo, kind))
  {
  }

  lemma {:induction false} DroppedInv(db: DB, g: int)
    requires Inv(db)
    ensures Inv(GroupDropped(db, g))
  {
  }

  /** Storing names, people, flags and blobs leaves the photos, the groups and the log alone. */
  ghost predicate SamePhotosAndGroups(db: DB, db': DB) {
    && db'.photos == db.photos && db'.log == db.log && db'.groups == db.groups
    && db'.nextPhoto == db.nextPhoto && db'.nextGroup == db.nextGroup
    && (NamesInv(db) ==> NamesInv(db'))
  }

  lemma {:induction false} NameFrame(db: DB, id: Id, name: string)
    ensures SamePhotosAndGroups(db, NameStored(db, id, name).0)
  {
  }

  lemma {:induction false} SameInv(db: DB, db': DB)
    requires Inv(db) && SamePhotosAndGroups(db, db')
    ensures Inv(db')
  {
  }

  lemma {:induction false} InvKept(db: DB, photo: int, kind: GroupType, gid: Id)
    requires Inv(db)
    ensures Inv(GroupAdded(db, photo, kind)) && Inv(GroupRemoved(db, gid).0)
  {
    FoundedInv(db, photo, kind);
    if gid.Valid? && gid.value in db.groups {
      DroppedInv(db, gid.value);
      UpdatedRows(GroupDropped(db, gid.value), Clearings(PhotosToClear(db, gid.value)));
    }
  }
}
