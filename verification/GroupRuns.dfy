/** Photos and the group table agree: which operations keep it so, and what removing and listing
    groups give when it is so. */
module GroupRuns {
  import opened Wrappers
  import opened PhotoData
  import opened ContainersUtils
  import ChangeLog
  import opened Database
  import opened InMemoryBackend
  import opened BackendRuns

  function GroupOf(db: DB, photo: int): GroupInfo
    requires photo in db.photos
  {
    db.photos[photo].group
  }

  /** A photo's group id is valid iff it has a role, and names a live group; the representative of
      each live group is the photo recorded in the table, and no other. */
  ghost predicate GroupsAgree(db: DB) {
    && (forall p | p in db.photos :: PhotoAgrees(db, p))
    && (forall g | g in db.groups :: HasRepresentative(db, g))
  }

  ghost predicate PhotoAgrees(db: DB, p: int)
    requires p in db.photos
  {
    var info := GroupOf(db, p);
    && WellFormedGroup(info)
    && (info.groupId.Valid? ==> info.groupId.value in db.groups)
    && (info.role == Representative && info.groupId.Valid? && info.groupId.value in db.groups ==>
        db.groups[info.groupId.value].0 == p)
  }

  ghost predicate HasRepresentative(db: DB, g: int)
    requires g in db.groups
  {
    var p := db.groups[g].0;
    p in db.photos && GroupOf(db, p) == GroupInfo(Valid(g), Representative)
  }

  // ----- updates -----

  /** No group, or membership of a live one. */
  predicate Follower(db: DB, info: GroupInfo) {
    info == NO_GROUP || (info.role == Member && info.groupId.Valid? && info.groupId.value in db.groups)
  }

  /** A representative keeps its group; any other photo is left without one or joins a live one. */
  predicate SafeUpdate(db: DB, delta: Delta)
    requires delta.id.Valid? && delta.id.value in db.photos
  {
    var current := GroupOf(db, delta.id.value);
    var next := Filled(delta).group;
    if current.role == Representative then next == current else Follower(db, next)
  }

  /** An update keeps photos and groups in agreement exactly when it is safe. */
  lemma {:induction false} UpdateKeepsAgreement(db: DB, delta: Delta)
    requires GroupsAgree(db) && delta.id.Valid? && delta.id.value in db.photos
    ensures GroupsAgree(Updated(db, delta)) <==> SafeUpdate(db, delta)
  {
    var p := delta.id.value;
    var db' := Updated(db, delta);
    assert GroupOf(db', p) == Filled(delta).group;
    assert forall q | q in db.photos && q != p :: GroupOf(db', q) == GroupOf(db, q);
  }

  // ----- new photos and new groups -----

  /** New photos keep the agreement exactly when each is ungrouped or a member of a live group. */
  lemma {:induction false} AddPhotosKeepsAgreement(db: DB, deltas: seq<Delta>)
    requires Inv(db) && GroupsAgree(db)
    ensures GroupsAgree(AllAdded(db, deltas)) <==> forall i | 0 <= i < |deltas| :: Follower(db, Filled(deltas[i]).group)
  {
    if forall i | 0 <= i < |deltas| :: Follower(db, Filled(deltas[i]).group) {
      FollowersAgree(db, deltas);
    }
    if GroupsAgree(AllAdded(db, deltas)) {
      AddedRows(db, deltas);
    }
  }

  lemma {:induction false} FollowersAgree(db: DB, deltas: seq<Delta>)
    requires Inv(db) && GroupsAgree(db) && forall i | 0 <= i < |deltas| :: Follower(db, Filled(deltas[i]).group)
    ensures GroupsAgree(AllAdded(db, deltas))
  {
    var db' := AllAdded(db, deltas);
    AddedRows(db, deltas);
    forall q | q in db'.photos
      ensures PhotoAgrees(db', q)
    {
      if q in db.photos {
        assert PhotoAgrees(db, q);
      } else {
        assert Follower(db, Filled(deltas[q - db.nextPhoto]).group);
      }
    }
    forall g | g in db'.groups
      ensures HasRepresentative(db', g)
    {
      assert HasRepresentative(db, g);
    }
  }

  /** Founding a group keeps the agreement exactly when its photo does not represent another one. */
  lemma {:induction false} AddGroupKeepsAgreement(db: DB, photo: int, kind: GroupType)
    requires Inv(db) && GroupsAgree(db) && photo in db.photos
    ensures GroupsAgree(GroupAdded(db, photo, kind)) <==> GroupOf(db, photo).role != Representative
  {
    var db' := GroupAdded(db, photo, kind);
    var g := db.nextGroup;
    assert PhotoAgrees(db, photo);
    assert GroupOf(db', photo) == GroupInfo(Valid(g), Representative);
    if GroupOf(db, photo).role != Representative {
      forall q | q in db'.photos
        ensures PhotoAgrees(db', q)
      {
        assert PhotoAgrees(db, q);
      }
      forall h | h in db'.groups
        ensures HasRepresentative(db', h)
      {
        if h != g {
          assert HasRepresentative(db, h);
        }
      }
    } else {
      var h := GroupOf(db, photo).groupId.value;
      assert h in db'.groups && db'.groups[h] == db.groups[h];
      assert !HasRepresentative(db', h);
    }
  }

  // ----- removing a group -----

  lemma {:induction false} ClearedRows(db: DB, photos: seq<int>)
    requires Ascending(photos) && forall i | 0 <= i < |photos| :: photos[i] in db.photos
    ensures var r := AllUpdated(db, Clearings(photos));
      && r.photos.Keys == db.photos.Keys && r.groups == db.groups
      && forall p | p in db.photos :: r.photos[p] == if p in photos then DEFAULT_ROW else db.photos[p]
  {
    var deltas := Clearings(photos);
    UpdatedRows(db, deltas);
    forall p | p in db.photos
      ensures AllUpdated(db, deltas).photos[p] == if p in photos then DEFAULT_ROW else db.photos[p]
    {
      if p in photos {
        var i :| 0 <= i < |photos| && photos[i] == p;
        UpdatedRow(db, deltas, i);
      }
    }
  }

  /** Removing a live group returns its representative, leaves no photo in it and no other row
      changed, and keeps the agreement. The rows of its photos go back to their defaults as a whole. */
  lemma {:induction false} RemoveGroupKeepsAgreement(db: DB, g: int)
    requires GroupsAgree(db) && g in db.groups
    ensures var (r, representative) := GroupRemoved(db, Valid(g));
      && representative == Valid(db.groups[g].0)
      && r.groups == db.groups - {g} && r.photos.Keys == db.photos.Keys
      && (forall p | p in db.photos :: r.photos[p] == if InGroup(db.photos[p], g) then DEFAULT_ROW else db.photos[p])
      && PhotosIn(r, g) == {} && GroupsAgree(r)
  {
    var photos := PhotosToClear(db, g);
    ClearedRows(GroupDropped(db, g), photos);
    assert HasRepresentative(db, g);
    assert db.groups[g].0 in photos;
    FindRepresentative(db, g, photos);
    StillAgrees(db, GroupRemoved(db, Valid(g)).0, g);
  }

  lemma {:induction false} StillAgrees(db: DB, r: DB, g: int)
    requires GroupsAgree(db) && g in db.groups && r.groups == db.groups - {g} && r.photos.Keys == db.photos.Keys
    requires forall p | p in db.photos :: r.photos[p] == if InGroup(db.photos[p], g) then DEFAULT_ROW else db.photos[p]
    ensures PhotosIn(r, g) == {} && GroupsAgree(r)
  {
    assert forall p | p in r.photos :: !InGroup(r.photos[p], g);
    forall p | p in r.photos
      ensures PhotoAgrees(r, p)
    {
      assert PhotoAgrees(db, p);
    }
    forall h | h in r.groups
      ensures HasRepresentative(r, h)
    {
      assert HasRepresentative(db, h);
    }
  }

  lemma {:induction false} FindRepresentative(db: DB, g: int, photos: seq<int>)
    requires GroupsAgree(db) && g in db.groups && db.groups[g].0 in photos
    requires forall i | 0 <= i < |photos| :: photos[i] in db.photos && InGroup(db.photos[photos[i]], g)
    ensures RepresentativeAmong(db, photos) == Valid(db.groups[g].0)
  {
    var n := |photos| - 1;
    assert PhotoAgrees(db, photos[n]);
    if GroupOf(db, photos[n]).role != Representative {
      assert HasRepresentative(db, g);
      assert photos == photos[..n] + [photos[n]];
      FindRepresentative(db, g, photos[..n]);
    }
  }

  // ----- listing the groups -----

  /** Every listed id comes from a photo of the list, in order. */
  lemma {:induction false} ListedFrom(db: DB, photos: seq<int>) returns (at: seq<int>)
    requires forall i | 0 <= i < |photos| :: photos[i] in db.photos
    ensures |at| == |GroupsListed(db, photos)|
    ensures forall i | 0 <= i < |at| :: 0 <= at[i] < |photos|
    ensures forall i | 0 <= i < |at| ::
      GroupOf(db, photos[at[i]]) == GroupInfo(GroupsListed(db, photos)[i], Representative)
    ensures forall i, j | 0 <= i < j < |at| :: at[i] < at[j]
    ensures forall k | 0 <= k < |photos| && GroupOf(db, photos[k]).role == Representative :: k in at
  {
    if photos == [] {
      at := [];
    } else {
      var n := |photos| - 1;
      at := ListedFrom(db, photos[..n]);
      if GroupOf(db, photos[n]).role == Representative {
        at := at + [n];
      }
    }
  }

  /** While photos and groups agree, listGroups gives each live group exactly once. */
  lemma {:induction false} EachGroupListedOnce(db: DB)
    requires GroupsAgree(db)
    ensures var photos := InOrder(db.photos.Keys);
      && (forall i | 0 <= i < |photos| :: photos[i] in db.photos)
      && var listed := GroupsListed(db, photos);
      && (forall g :: Valid(g) in listed <==> g in db.groups)
      && Invalid !in listed
      && (forall i, j | 0 <= i < j < |listed| :: listed[i] != listed[j])
  {
    var photos := InOrder(db.photos.Keys);
    InOrderAscends(db.photos.Keys);
    assert forall i | 0 <= i < |photos| :: photos[i] in photos;
    var at := ListedFrom(db, photos);
    ListedAreLive(db, photos, at);
    forall g | g in db.groups
      ensures Valid(g) in GroupsListed(db, photos)
    {
      LiveIsListed(db, photos, at, g);
    }
  }

  /** The listed groups are live and, each coming from its own representative, different. */
  lemma {:induction false} ListedAreLive(db: DB, photos: seq<int>, at: seq<int>)
    requires GroupsAgree(db) && Ascending(photos) && forall i | 0 <= i < |photos| :: photos[i] in db.photos
    requires |at| == |GroupsListed(db, photos)|
    requires forall i | 0 <= i < |at| :: 0 <= at[i] < |photos|
    requires forall i | 0 <= i < |at| ::
      GroupOf(db, photos[at[i]]) == GroupInfo(GroupsListed(db, photos)[i], Representative)
    requires forall i, j | 0 <= i < j < |at| :: at[i] < at[j]
    ensures var listed := GroupsListed(db, photos);
      && (forall i | 0 <= i < |listed| :: listed[i].Valid? && listed[i].value in db.groups)
      && (forall i, j | 0 <= i < j < |listed| :: listed[i] != listed[j])
  {
    var listed := GroupsListed(db, photos);
    forall i | 0 <= i < |listed|
      ensures listed[i].Valid? && listed[i].value in db.groups && db.groups[listed[i].value].0 == photos[at[i]]
    {
      assert PhotoAgrees(db, photos[at[i]]);
    }
  }

  lemma {:induction false} LiveIsListed(db: DB, photos: seq<int>, at: seq<int>, g: int)
    requires GroupsAgree(db) && g in db.groups && db.groups[g].0 in photos
    requires forall i | 0 <= i < |photos| :: photos[i] in db.photos
    requires |at| == |GroupsListed(db, photos)|
    requires forall i | 0 <= i < |at| :: 0 <= at[i] < |photos|
    requires forall i | 0 <= i < |at| ::
      GroupOf(db, photos[at[i]]) == GroupInfo(GroupsListed(db, photos)[i], Representative)
    requires forall k | 0 <= k < |photos| && GroupOf(db, photos[k]).role == Representative :: k in at
    ensures Valid(g) in GroupsListed(db, photos)
  {
    assert HasRepresentative(db, g);
    var k :| 0 <= k < |photos| && photos[k] == db.groups[g].0;
    assert k in at;
    var i :| 0 <= i < |at| && at[i] == k;
    assert GroupsListed(db, photos)[i] == Valid(g);
  }

  // ----- over runs -----

  predicate SafeUpdates(db: DB, deltas: seq<Delta>) {
    deltas == [] ||
    var n := |deltas| - 1; var before := AllUpdated(db, deltas[..n]);
    && SafeUpdates(db, deltas[..n])
    && deltas[n].id.Valid? && deltas[n].id.value in before.photos && SafeUpdate(before, deltas[n])
  }

  predicate SafeOperation(db: DB, op: DbOperation) {
    match op
    case AddPhotos(deltas) => forall i | 0 <= i < |deltas| :: Follower(db, Filled(deltas[i]).group)
    case Update(changes) => SafeUpdates(db, changes)
    case AddGroup(p, _) => p in db.photos && GroupOf(db, p).role != Representative
    case _ => true
  }

  lemma {:induction false} UpdatesKeepAgreement(db: DB, deltas: seq<Delta>)
    requires GroupsAgree(db) && SafeUpdates(db, deltas)
    ensures GroupsAgree(AllUpdated(db, deltas))
  {
    if deltas != [] {
      UpdatesKeepAgreement(db, deltas[..|deltas| - 1]);
      UpdateKeepsAgreement(AllUpdated(db, deltas[..|deltas| - 1]), deltas[|deltas| - 1]);
    }
  }

  lemma {:induction false} OperationKeepsAgreement(db: DB, op: DbOperation)
    requires Inv(db) && GroupsAgree(db) && SafeOperation(db, op)
    ensures Inv(Applied(db, op)) && GroupsAgree(Applied(db, op))
  {
    match op
    case AddPhotos(deltas) =>
      AddedRows(db, deltas);
      AddPhotosKeepsAgreement(db, deltas);
    case Update(changes) =>
      UpdatedRows(db, changes);
      UpdatesKeepAgreement(db, changes);
    case AddGroup(p, kind) =>
      InvKept(db, p, kind, Invalid);
      AddGroupKeepsAgreement(db, p, kind);
    case RemoveGroup(gid) =>
      InvKept(db, 0, Generic, gid);
      if gid.Valid? && gid.value in db.groups {
        RemoveGroupKeepsAgreement(db, gid.value);
      }
    case _ => OtherOperationKeepsAgreement(db, op);
  }

  lemma {:induction false} OtherOperationKeepsAgreement(db: DB, op: DbOperation)
    requires Inv(db) && GroupsAgree(db)
    requires op.SetFlag? || op.SetPHash? || op.WriteBlob? || op.StorePerson? || op.StoreName?
    ensures Inv(Applied(db, op)) && GroupsAgree(Applied(db, op))
  {
    if !op.SetPHash? {
      UnloggedFrame(db, op);
      SameTables(db, Applied(db, op));
    }
  }

  lemma {:induction false} SameTables(db: DB, db': DB)
    requires Inv(db) && GroupsAgree(db) && SamePhotosAndGroups(db, db')
    ensures Inv(db') && GroupsAgree(db')
  {
    SameInv(db, db');
  }

  predicate AllSafe(db: DB, ops: seq<DbOperation>) {
    ops == [] || (AllSafe(db, ops[..|ops| - 1]) && SafeOperation(AppliedAll(db, ops[..|ops| - 1]), ops[|ops| - 1]))
  }

  lemma {:induction false} OperationsKeepAgreement(db: DB, ops: seq<DbOperation>)
    requires Inv(db) && GroupsAgree(db) && AllSafe(db, ops)
    ensures Inv(AppliedAll(db, ops)) && GroupsAgree(AppliedAll(db, ops))
  {
    if ops != [] {
      OperationsKeepAgreement(db, ops[..|ops| - 1]);
      OperationKeepsAgreement(AppliedAll(db, ops[..|ops| - 1]), ops[|ops| - 1]);
    }
  }

  /** In every run, with any nesting of transactions and any aborts, in which the operations that took
      effect were safe, photos and groups agree. */
  lemma {:induction false} GroupsAgreeInEveryRun(es: seq<Event>)
    requires Legal(INITIAL, es)
    requires AllSafe(EMPTY_DB, Scanned(es).done + Scanned(es).running)
    ensures GroupsAgree(Run(INITIAL, es).db)
  {
    AbortedTransactionsLeaveNoTrace(INITIAL, es);
    OperationsKeepAgreement(EMPTY_DB, Scanned(es).done + Scanned(es).running);
  }
}
