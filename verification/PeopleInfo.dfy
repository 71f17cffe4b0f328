/** The table of people found on photos, and the rule by which person data is stored in it. */
module PeopleInfo {
  import opened Wrappers
  import opened PhotoData
  import opened ContainersUtils

  /** Rows by id, with the counter that gives ids to new rows. */
  datatype Table = Table(rows: map<int, PersonInfo>, next: int)

  /** Each row carries its own id, and the counter is above every id in use. */
  ghost predicate WellFormed(t: Table) {
    forall k | k in t.rows :: t.rows[k].id == Valid(k) && k < t.next
  }

  /** The row describes the person that is being stored: same valid rectangle, or same known person
      in a row without a rectangle. */
  predicate SamePerson(fd: PersonInfo, row: PersonInfo) {
    || (ValidRect(fd.rect) && row.rect == fd.rect)
    || (row.personId.Valid? && row.personId == fd.personId && !ValidRect(row.rect))
  }

  function Candidates(t: Table, fd: PersonInfo): set<int> {
    set k | k in t.rows && t.rows[k].photoId == fd.photoId && SamePerson(fd, t.rows[k])
  }

  /** The first matching row of the photo in id order. */
  function FirstMatch(t: Table, fd: PersonInfo): Option<int> {
    if Candidates(t, fd) == {} then None else Some(Least(Candidates(t, fd)))
  }

  function Dropped(t: Table, id: Id): Table {
    if id.Valid? then t.(rows := t.rows - {id.value}) else t
  }

  /** storePerson: rewrite the row with the given id, or add one with the next id. */
  function Written(t: Table, pi: PersonInfo): (Table, Id) {
    if pi.id.Valid? then (t.(rows := t.rows[pi.id.value := pi]), pi.id)
    else (Table(t.rows[t.next := pi.(id := Valid(t.next))], t.next + 1), Valid(t.next))
  }

  predicate IsRemoval(fd: PersonInfo) {
    fd.id.Valid? && !ValidRect(fd.rect) && fd.personId.Invalid?
  }

  /** What is stored once an existing row has been looked for. */
  function Resolved(t: Table, fd: PersonInfo): PersonInfo {
    if fd.id.Invalid? && FirstMatch(t, fd).Some? then fd.(id := Valid(FirstMatch(t, fd).value)) else fd
  }

  function Stored(t: Table, fd: PersonInfo): (Table, Id) {
    if IsRemoval(fd) then (Dropped(t, fd.id), fd.id) else Written(t, Resolved(t, fd))
  }

  /** store(PersonInfo), with the second test for a removal that the source makes. */
  method Store(t: Table, fd: PersonInfo) returns (t': Table, result: Id)
    ensures (t', result) == Stored(t, fd)
  {
    t', result := t, fd.id;
    if fd.id.Valid? && !ValidRect(fd.rect) && fd.personId.Invalid? {
      t' := Dropped(t, fd.id);
    } else {
      var toStore := fd;
      if fd.id.Invalid? {
        var existing := ListPeople(t, fd.photoId);
        var found := FindSamePerson(t, fd, existing);
        if found.Some? {
          toStore := toStore.(id := Valid(found.value));
        }
      }
      assert toStore == Resolved(t, fd);
      ResolvedIsNoRemoval(t, fd);
      if toStore.id.Valid? && !ValidRect(toStore.rect) && toStore.personId.Invalid? {
        assert false;
      } else {
        t', result := Written(t, toStore).0, Written(t, toStore).1;
      }
    }
  }

  /** The ids of a photo's rows in ascending order. */
  function ListPeople(t: Table, photoId: Id): (r: seq<int>)
    ensures Ascending(r) && forall k :: k in r <==> k in t.rows && t.rows[k].photoId == photoId
  {
    var ids := set k | k in t.rows && t.rows[k].photoId == photoId;
    InOrderAscends(ids);
    InOrder(ids)
  }

  method FindSamePerson(t: Table, fd: PersonInfo, existing: seq<int>) returns (found: Option<int>)
    requires existing == ListPeople(t, fd.photoId)
    ensures found == FirstMatch(t, fd)
  {
    for i := 0 to |existing|
      invariant forall j | 0 <= j < i :: existing[j] in t.rows && !SamePerson(fd, t.rows[existing[j]])
    {
      assert existing[i] in existing;
      var person := t.rows[existing[i]];
      if ValidRect(fd.rect) && person.rect == fd.rect {
        FoundIsFirst(t, fd, existing, i);
        return Some(existing[i]);
      } else if person.personId.Valid? && person.personId == fd.personId && !ValidRect(person.rect) {
        FoundIsFirst(t, fd, existing, i);
        return Some(existing[i]);
      }
    }
    found := None;
  }

  lemma {:induction false} FoundIsFirst(t: Table, fd: PersonInfo, existing: seq<int>, i: nat)
    requires existing == ListPeople(t, fd.photoId) && i < |existing| && existing[i] in t.rows
    requires forall j | 0 <= j < i :: existing[j] in t.rows && !SamePerson(fd, t.rows[existing[j]])
    requires SamePerson(fd, t.rows[existing[i]])
    ensures FirstMatch(t, fd) == Some(existing[i])
  {
    var k := existing[i];
    assert k in existing;
    assert k in Candidates(t, fd);
    forall c | c in Candidates(t, fd)
      ensures k <= c
    {
      assert c in existing;
      var j :| 0 <= j < |existing| && existing[j] == c;
    }
  }

  /** The second drop in the source is never reached. */
  lemma {:induction false} ResolvedIsNoRemoval(t: Table, fd: PersonInfo)
    requires !IsRemoval(fd)
    ensures !IsRemoval(Resolved(t, fd))
  {
    if fd.id.Invalid? && FirstMatch(t, fd).Some? {
      assert FirstMatch(t, fd).value in Candidates(t, fd);
    }
  }

  /** Storing keeps the table well formed as long as given ids are ids of the table. */
  lemma {:induction false} StoredKeepsWellFormed(t: Table, fd: PersonInfo)
    requires WellFormed(t) && (fd.id.Valid? ==> fd.id.value in t.rows)
    ensures WellFormed(Stored(t, fd).0)
  {
    if fd.id.Invalid? && FirstMatch(t, fd).Some? {
      assert FirstMatch(t, fd).value in Candidates(t, fd);
    }
  }

  /** What storing leaves, written out: the row with the given id is dropped or written; without an id, it is the
      first row of the photo with the same rectangle, or with the same person and no rectangle; else a new row. */
  lemma {:induction false} StoredMeans(t: Table, fd: PersonInfo)
    ensures var (r, id) := Stored(t, fd);
      if fd.id.Valid? then
        && id == fd.id && r.next == t.next
        && r.rows == if fd.personId.Valid? || (fd.rect.width > 0 && fd.rect.height > 0) then t.rows[fd.id.value := fd]
                     else t.rows - {fd.id.value}
      else
        && id.Valid? && r.rows == t.rows[id.value := fd.(id := id)]
        && (if id.value in t.rows && r.next == t.next then FitsFirst(t, fd, id.value)
            else id.value == t.next && r.next == t.next + 1 && FitsNowhere(t, fd))
  {
    if fd.id.Invalid? {
      if Candidates(t, fd) == {} {
        assert forall k | k in t.rows :: k !in Candidates(t, fd);
      } else {
        var k := FirstMatch(t, fd).value;
        assert k in Candidates(t, fd);
        assert forall j | j in t.rows && j < k :: j !in Candidates(t, fd);
      }
    }
  }

  /** The row is of the photo and has its valid rectangle, or its known person and no rectangle. */
  ghost predicate FitsFirst(t: Table, fd: PersonInfo, k: int)
    requires k in t.rows
  {
    && t.rows[k].photoId == fd.photoId
    && ((fd.rect.width > 0 && fd.rect.height > 0 && t.rows[k].rect == fd.rect)
        || (fd.personId.Valid? && t.rows[k].personId == fd.personId
            && (t.rows[k].rect.width <= 0 || t.rows[k].rect.height <= 0)))
    && forall j | j in t.rows && j < k && t.rows[j].photoId == fd.photoId ::
      && (fd.rect.width > 0 && fd.rect.height > 0 ==> t.rows[j].rect != fd.rect)
      && (fd.personId.Valid? && t.rows[j].personId == fd.personId ==>
           t.rows[j].rect.width > 0 && t.rows[j].rect.height > 0)
  }

  ghost predicate FitsNowhere(t: Table, fd: PersonInfo) {
    forall j | j in t.rows && t.rows[j].photoId == fd.photoId ::
      && (fd.rect.width > 0 && fd.rect.height > 0 ==> t.rows[j].rect != fd.rect)
      && (fd.personId.Valid? && t.rows[j].personId == fd.personId ==>
           t.rows[j].rect.width > 0 && t.rows[j].rect.height > 0)
  }

  /** Without an id, one row is written and no other changes: the first match in id order, or a
      fresh row when nothing matches. */
  lemma {:induction false} StoredWithoutId(t: Table, fd: PersonInfo)
    requires WellFormed(t) && fd.id.Invalid?
    ensures var (t', id) := Stored(t, fd);
      && id.Valid? && id.value in t'.rows && t'.rows[id.value] == fd.(id := id)
      && t'.rows - {id.value} == t.rows - {id.value}
      && (Candidates(t, fd) == {} ==> id.value !in t.rows && t'.next == t.next + 1)
      && (Candidates(t, fd) != {} ==> id.value in Candidates(t, fd) && t'.next == t.next)
      && (forall k | k in Candidates(t, fd) :: id.value <= k)
  {
    var (t', id) := Stored(t, fd);
    if Candidates(t, fd) != {} {
      assert FirstMatch(t, fd).value in Candidates(t, fd);
    }
    assert t'.rows - {id.value} == t.rows - {id.value};
  }

  /** Storing the same data again finds the row just written and changes nothing, if and only if the
      data names a place or a person, which is what the source asserts; otherwise every call adds a row. */
  lemma {:induction false} StoreTwice(t: Table, fd: PersonInfo)
    requires WellFormed(t) && fd.id.Invalid?
    ensures var once := Stored(t, fd);
      Stored(once.0, fd) == once <==> ValidRect(fd.rect) || fd.personId.Valid?
  {
    var (t', id) := Stored(t, fd);
    StoredWithoutId(t, fd);
    if ValidRect(fd.rect) || fd.personId.Valid? {
      assert id.value in Candidates(t', fd);
      forall k | k in Candidates(t', fd)
        ensures id.value <= k
      {
        if k != id.value {
          assert t'.rows[k] == (t'.rows - {id.value})[k] == (t.rows - {id.value})[k];
          assert k in Candidates(t, fd);
        }
      }
      assert FirstMatch(t', fd) == Some(id.value);
      assert t'.rows[id.value := fd.(id := id)] == t'.rows;
    } else {
      assert Candidates(t', fd) == {};
    }
  }
}
