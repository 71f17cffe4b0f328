/** What each operation of the backend leaves in the tables, entry by entry, inside a transaction or outside. */
module OperationEffects {
  import opened Wrappers
  import opened PhotoData
  import opened ContainersUtils
  import opened ChangeLog
  import opened Database
  import opened InMemoryBackend
  import opened BackendRuns
  import People = PeopleInfo

  /** The database after an operation of a run. */
  function After(s: State, op: DbOperation): DB
    requires Enabled(s, Do(op))
  {
    Step(s, Do(op)).db
  }

  lemma {:induction false} TakesEffect(s: State, op: DbOperation)
    requires Enabled(s, Do(op)) && HandlesAlive(s)
    ensures After(s, op) == Applied(s.db, op)
  {
    if s.transaction.Some? {
      OperationInside(s, op);
    } else {
      EffectOutside(s, op);
    }
  }

  // ----- photos -----

  /** A new photo has what its delta carries, field by field, and the default where it carries nothing. */
  lemma {:induction false} PhotosAreAdded(s: State, deltas: seq<Delta>, i: nat, r: DB)
    requires HandlesAlive(s) && Inv(s.db) && i < |deltas| && r == After(s, AddPhotos(deltas))
    ensures var p, d := s.db.nextPhoto + i, deltas[i];
      p !in s.db.photos && p in r.photos && var row := r.photos[p];
      && row.tags == (if d.tags.Some? then d.tags.value else map[])
      && row.flags == (if d.flags.Some? then d.flags.value else map[])
      && row.path == (if d.path.Some? then d.path.value else "")
      && row.geometry == (if d.geometry.Some? then d.geometry.value else (-1, -1))
      && row.group == (if d.group.Some? then d.group.value else GroupInfo(Invalid, Alone))
      && row.phash == (if d.phash.Some? then d.phash.value else Invalid)
  {
    TakesEffect(s, AddPhotos(deltas));
    RowOfAdded(s.db, deltas, i);
  }

  lemma {:induction false} RowOfAdded(db: DB, deltas: seq<Delta>, i: nat)
    requires Inv(db) && i < |deltas|
    ensures db.nextPhoto + i !in db.photos && RowIs(AllAdded(db, deltas), db.nextPhoto + i, Filled(deltas[i]))
  {
    AddedRows(db, deltas);
  }

  /** The photos that were there stay as they are, and there are no others than these and the new ones. */
  lemma {:induction false} AddingKeepsPhotos(s: State, deltas: seq<Delta>, p: int)
    requires HandlesAlive(s) && Inv(s.db)
    ensures var r := After(s, AddPhotos(deltas));
      && (p in r.photos <==> p in s.db.photos || s.db.nextPhoto <= p < s.db.nextPhoto + |deltas|)
      && (p in s.db.photos ==> r.photos[p] == s.db.photos[p])
  {
    TakesEffect(s, AddPhotos(deltas));
    AddedRows(s.db, deltas);
  }

  /** The whole row of an updated photo is replaced: what the last delta naming it carries, and else the default. */
  lemma {:induction false} PhotosAreUpdated(s: State, changes: seq<Delta>, i: nat, r: DB)
    requires Enabled(s, Do(Update(changes))) && HandlesAlive(s) && i < |changes| && r == After(s, Update(changes))
    requires forall j | i < j < |changes| :: changes[j].id != changes[i].id
    ensures var p, d := changes[i].id.value, changes[i];
      p in r.photos && var row := r.photos[p];
      && row.tags == (if d.tags.Some? then d.tags.value else map[])
      && row.flags == (if d.flags.Some? then d.flags.value else map[])
      && row.path == (if d.path.Some? then d.path.value else "")
      && row.geometry == (if d.geometry.Some? then d.geometry.value else (-1, -1))
      && row.group == (if d.group.Some? then d.group.value else GroupInfo(Invalid, Alone))
      && row.phash == (if d.phash.Some? then d.phash.value else Invalid)
  {
    TakesEffect(s, Update(changes));
    UpdatedRow(s.db, changes, i);
  }

  /** A photo that no delta names stays as it is, and none comes or goes. */
  lemma {:induction false} UpdatingKeepsPhotos(s: State, changes: seq<Delta>, p: int)
    requires Enabled(s, Do(Update(changes))) && HandlesAlive(s)
    ensures var r := After(s, Update(changes));
      && (p in r.photos <==> p in s.db.photos)
      && (p in s.db.photos && (forall i | 0 <= i < |changes| :: changes[i].id != Valid(p)) ==>
           r.photos[p] == s.db.photos[p])
      && r.flags == s.db.flags && r.groups == s.db.groups && r.names == s.db.names && r.people == s.db.people
      && r.blobs == s.db.blobs
  {
    TakesEffect(s, Update(changes));
    UpdatedRows(s.db, changes);
  }

  // ----- flags, hashes and blobs -----

  /** One flag of one photo is set, and every other flag is what it was. */
  lemma {:induction false} FlagIsSet(s: State, p: int, name: string, value: int, q: int, other: string)
    requires HandlesAlive(s)
    ensures var r := After(s, SetFlag(p, name, value));
      && p in r.flags && name in r.flags[p] && r.flags[p][name] == value
      && (q != p || other != name ==>
           (q in r.flags && other in r.flags[q] <==> q in s.db.flags && other in s.db.flags[q])
           && (q in s.db.flags && other in s.db.flags[q] ==> r.flags[q][other] == s.db.flags[q][other]))
      && r == s.db.(flags := r.flags)
  {
    TakesEffect(s, SetFlag(p, name, value));
  }

  lemma {:induction false} HashIsSet(s: State, p: int, phash: Id, q: int)
    requires HandlesAlive(s)
    ensures var r := After(s, SetPHash(p, phash));
      && (q in r.photos <==> q in s.db.photos)
      && (q in s.db.photos ==> r.photos[q] == if q == p then s.db.photos[q].(phash := phash) else s.db.photos[q])
      && r == s.db.(photos := r.photos)
  {
    TakesEffect(s, SetPHash(p, phash));
  }

  lemma {:induction false} BlobIsWritten(s: State, p: int, kind: string, blob: string)
    requires HandlesAlive(s)
    ensures After(s, WriteBlob(p, kind, blob)) == s.db.(blobs := s.db.blobs[(p, kind) := blob])
  {
    TakesEffect(s, WriteBlob(p, kind, blob));
  }

  // ----- groups -----

  /** A new group is in the table under a fresh id; its representative keeps nothing but that it represents it, and
      every other photo stays as it is. */
  lemma {:induction false} GroupIsFounded(s: State, p: int, kind: GroupType, q: int)
    requires Enabled(s, Do(AddGroup(p, kind))) && HandlesAlive(s) && Inv(s.db)
    ensures var r, g := After(s, AddGroup(p, kind)), s.db.nextGroup;
      && g !in s.db.groups && r.groups == s.db.groups[g := (p, kind)] && r.nextGroup == g + 1
      && p in r.photos && r.photos[p] == Row(map[], map[], "", (-1, -1), GroupInfo(Valid(g), Representative), Invalid)
      && (q in r.photos <==> q in s.db.photos)
      && (q in s.db.photos && q != p ==> r.photos[q] == s.db.photos[q])
      && r.flags == s.db.flags && r.names == s.db.names && r.people == s.db.people && r.blobs == s.db.blobs
  {
    TakesEffect(s, AddGroup(p, kind));
  }

  /** Removing a group resets exactly the photos in it, and drops it from the table. */
  lemma {:induction false} GroupIsRemoved(s: State, g: int, q: int)
    requires HandlesAlive(s) && g in s.db.groups
    ensures var r := After(s, RemoveGroup(Valid(g)));
      && r.groups == s.db.groups - {g}
      && (q in r.photos <==> q in s.db.photos)
      && (q in s.db.photos ==>
           if s.db.photos[q].group.groupId == Valid(g) && s.db.photos[q].group.role != Alone
           then r.photos[q] == Row(map[], map[], "", (-1, -1), GroupInfo(Invalid, Alone), Invalid)
           else r.photos[q] == s.db.photos[q])
      && r.flags == s.db.flags && r.names == s.db.names && r.people == s.db.people && r.blobs == s.db.blobs
  {
    TakesEffect(s, RemoveGroup(Valid(g)));
    GroupRemovedTables(s.db, g);
    if q in s.db.photos {
      GroupRemovedRow(s.db, g, q);
    }
  }

  lemma {:induction false} GroupRemovedTables(db: DB, g: int)
    requires g in db.groups
    ensures var r := GroupRemoved(db, Valid(g)).0;
      r == db.(groups := db.groups - {g}, photos := r.photos, log := r.log) && r.photos.Keys == db.photos.Keys
  {
    UpdatedRows(GroupDropped(db, g), Clearings(PhotosToClear(db, g)));
  }

  lemma {:induction false} GroupRemovedRow(db: DB, g: int, q: int)
    requires g in db.groups && q in db.photos
    ensures RowIs(GroupRemoved(db, Valid(g)).0, q,
      if db.photos[q].group.groupId == Valid(g) && db.photos[q].group.role != Alone then DEFAULT_ROW else db.photos[q])
  {
    ClearedAreThoseInGroup(db, g);
    if q in PhotosIn(db, g) {
      ClearedRow(GroupDropped(db, g), PhotosToClear(db, g), q);
    } else {
      UpdatedRows(GroupDropped(db, g), Clearings(PhotosToClear(db, g)));
    }
  }

  lemma {:induction false} ClearedRow(db: DB, photos: seq<int>, q: int)
    requires q in photos && q in db.photos && Ascending(photos)
    ensures RowIs(AllUpdated(db, Clearings(photos)), q, DEFAULT_ROW)
  {
    var i :| 0 <= i < |photos| && photos[i] == q;
    UpdatedRow(db, Clearings(photos), i);
  }

  // ----- people -----

  /** A known person is renamed, an unknown id is refused; without an id it is the first person of that name, or a
      new one. */
  lemma {:induction false} NameIsStored(db: DB, id: Id, name: string)
    ensures var (r, result) := NameStored(db, id, name);
      && r == db.(names := r.names, nextName := r.nextName)
      && (if id.Valid? then
            && r.nextName == db.nextName && result == (if id.value in db.names then id else Invalid)
            && r.names == (if id.value in db.names then db.names[id.value := name] else db.names)
          else
            && result.Valid? && result.value in r.names && r.names[result.value] == name
            && (if exists n :: n in db.names && db.names[n] == name
                then r.names == db.names && r.nextName == db.nextName
                     && forall n | n in db.names && n < result.value :: db.names[n] != name
                else r.names == db.names[db.nextName := name] && r.nextName == db.nextName + 1
                     && result == Valid(db.nextName)))
  {
    if id.Invalid? {
      assert forall n | n in db.names :: n in NamesakesOf(db, name) <==> db.names[n] == name;
      SomeElement(NamesakesOf(db, name));
    }
  }

  /** Some row says that there is a person of that name at that place of the photo. */
  ghost predicate IsOnPhoto(db: DB, photo: int, name: string, place: Rect) {
    exists k :: k in db.people.rows && RowSays(db, k, photo, name, place)
  }

  ghost predicate RowSays(db: DB, k: int, photo: int, name: string, place: Rect)
    requires k in db.people.rows
  {
    var row := db.people.rows[k];
    && row.photoId == Valid(photo) && row.rect == place
    && row.personId.Valid? && row.personId.value in db.names && db.names[row.personId.value] == name
  }

  /** People named without an id, each at a place of its own. */
  ghost predicate ApartAndUnknown(people: seq<PersonFullInfo>) {
    && (forall i | 0 <= i < |people| ::
          people[i].nameId.Invalid? && people[i].position.width > 0 && people[i].position.height > 0)
    && (forall i, j | 0 <= i < j < |people| :: people[i].position != people[j].position)
  }

  /** Every person of a new photo is found on it afterwards, by name and place. */
  lemma {:induction false} PeopleAreAdded(db: DB, photo: int, people: seq<PersonFullInfo>, i: nat)
    requires ApartAndUnknown(people) && i < |people| && NamesInv(db) && People.WellFormed(db.people)
    ensures IsOnPhoto(PeopleAdded(db, photo, people), photo, people[i].name, people[i].position)
    decreases |people|
  {
    var n := |people| - 1;
    var before := PeopleAdded(db, photo, people[..n]);
    PeopleStayGood(db, photo, people[..n]);
    if i < n {
      PeopleAreAdded(db, photo, people[..n], i);
      OthersStayOnPhoto(before, photo, people[n], people[i].name, people[i].position);
    } else {
      PersonIsAdded(before, photo, people[n]);
    }
  }

  lemma {:induction false} PeopleStayGood(db: DB, photo: int, people: seq<PersonFullInfo>)
    requires ApartAndUnknown(people) && NamesInv(db) && People.WellFormed(db.people)
    ensures NamesInv(PeopleAdded(db, photo, people)) && People.WellFormed(PeopleAdded(db, photo, people).people)
  {
    if people != [] {
      PeopleStayGood(db, photo, people[..|people| - 1]);
      PersonIsAdded(PeopleAdded(db, photo, people[..|people| - 1]), photo, people[|people| - 1]);
    }
  }

  lemma {:induction false} PersonIsAdded(db: DB, photo: int, person: PersonFullInfo)
    requires person.nameId.Invalid? && person.position.width > 0 && person.position.height > 0
    requires NamesInv(db) && People.WellFormed(db.people)
    ensures var r := PersonAdded(db, photo, person);
      IsOnPhoto(r, photo, person.name, person.position) && NamesInv(r) && People.WellFormed(r.people)
  {
    NameIsStored(db, person.nameId, person.name);
    var named := NameStored(db, person.nameId, person.name);
    var fd := PersonInfo(Invalid, named.1, Valid(photo), Invalid, person.position);
    People.StoredWithoutId(named.0.people, fd);
    People.StoredKeepsWellFormed(named.0.people, fd);
    var r := PersonAdded(db, photo, person);
    assert RowSays(r, People.Stored(named.0.people, fd).1.value, photo, person.name, person.position);
  }

  /** Adding a person does not disturb one that is somewhere else on the photo. */
  lemma {:induction false} OthersStayOnPhoto(db: DB, photo: int, person: PersonFullInfo, name: string, place: Rect)
    requires person.nameId.Invalid? && place.width > 0 && place.height > 0 && place != person.position
    requires NamesInv(db) && People.WellFormed(db.people) && IsOnPhoto(db, photo, name, place)
    ensures IsOnPhoto(PersonAdded(db, photo, person), photo, name, place)
  {
    var k :| k in db.people.rows && RowSays(db, k, photo, name, place);
    NameIsStored(db, person.nameId, person.name);
    var named := NameStored(db, person.nameId, person.name);
    var fd := PersonInfo(Invalid, named.1, Valid(photo), Invalid, person.position);
    People.StoredMeans(named.0.people, fd);
    assert RowSays(PersonAdded(db, photo, person), k, photo, name, place);
  }

  /** So it is for the people of a delta, once its photo has been added. */
  lemma {:induction false} AddedPhotoHasItsPeople(db: DB, delta: Delta, i: nat)
    requires Inv(db) && People.WellFormed(db.people)
    requires delta.people.Some? && ApartAndUnknown(delta.people.value) && i < |delta.people.value|
    ensures IsOnPhoto(AllAdded(db, [delta]), db.nextPhoto, delta.people.value[i].name, delta.people.value[i].position)
  {
    var people, p := delta.people.value, db.nextPhoto;
    assert [delta][..0] == [];
    var inserted := db.(photos := db.photos[p := Filled(delta)]);
    PeopleAreAdded(inserted, p, people, i);
    var r := PeopleAdded(inserted, p, people);
    assert AllAdded(db, [delta]) == r.(nextPhoto := p + 1);
    var k :| k in r.people.rows && RowSays(r, k, p, people[i].name, people[i].position);
    assert RowSays(AllAdded(db, [delta]), k, p, people[i].name, people[i].position);
  }

  /** Storing a name or a person in a run does what is written out for the tables. */
  lemma {:induction false} NamesAndPeople(s: State, id: Id, name: string, fd: PersonInfo)
    requires HandlesAlive(s)
    ensures After(s, StoreName(id, name)) == NameStored(s.db, id, name).0
    ensures After(s, StorePerson(fd)) == s.db.(people := People.Stored(s.db.people, fd).0)
  {
    TakesEffect(s, StoreName(id, name));
    TakesEffect(s, StorePerson(fd));
  }
}
