/** Replaying the change log over whole runs, rollbacks included. */
module ReplayRuns {
  import opened Wrappers
  import opened PhotoData
  import opened ContainersUtils
  import opened ChangeLog
  import opened Database
  import opened InMemoryBackend
  import opened BackendRuns

  /** What is remembered of a run beside the database: each photo as it was when it was added, and
      the photos that some update has touched without carrying tags, or without carrying a group. */
  datatype Audit = Audit(birth: map<int, Row>, withoutTags: set<int>, withoutGroup: set<int>)

  const NO_AUDIT := Audit(map[], {}, {})

  function UpdateAudited(a: Audit, delta: Delta): Audit {
    if delta.id.Invalid? then a
    else a.(
      withoutTags := if delta.tags.None? then a.withoutTags + {delta.id.value} else a.withoutTags,
      withoutGroup := if delta.group.None? then a.withoutGroup + {delta.id.value} else a.withoutGroup)
  }

  function UpdatesAudited(a: Audit, deltas: seq<Delta>): Audit {
    if deltas == [] then a else UpdateAudited(UpdatesAudited(a, deltas[..|deltas| - 1]), deltas[|deltas| - 1])
  }

  function Births(db: DB, deltas: seq<Delta>): map<int, Row> {
    map p | p in NewIds(db, |deltas|) :: Filled(deltas[p - db.nextPhoto])
  }

  function Audited(db: DB, a: Audit, op: DbOperation): Audit {
    match op
    case AddPhotos(deltas) => a.(birth := a.birth + Births(db, deltas))
    case Update(changes) => UpdatesAudited(a, changes)
    case AddGroup(p, _) => UpdateAudited(a, RepresentativeDelta(p, db.nextGroup))
    case RemoveGroup(g) =>
      if g.Valid? && g.value in db.groups then UpdatesAudited(a, Clearings(PhotosToClear(db, g.value))) else a
    case _ => a
  }

  function AuditedAll(db: DB, ops: seq<DbOperation>): Audit {
    if ops == [] then NO_AUDIT
    else Audited(AppliedAll(db, ops[..|ops| - 1]), AuditedAll(db, ops[..|ops| - 1]), ops[|ops| - 1])
  }

  // ----- what holds -----

  ghost predicate TagsReplay(db: DB, a: Audit, p: int) {
    && p in db.photos && p in a.birth
    && ReplayTags(Raw(a.birth[p].tags), db.log, p) == Raw(db.photos[p].tags)
  }

  ghost predicate GroupReplays(db: DB, a: Audit, p: int) {
    && p in db.photos && p in a.birth
    && ReplayGroup(a.birth[p].group, db.log, p) == db.photos[p].group
  }

  /** The log reproduces the tags and the group of every photo whose updates all carried them. */
  ghost predicate Replays(db: DB, a: Audit) {
    && Inv(db)
    && (forall p | p in db.photos :: WellFormedGroup(db.photos[p].group))
    && (forall p | p in db.photos && p !in a.withoutTags :: TagsReplay(db, a, p))
    && (forall p | p in db.photos && p !in a.withoutGroup :: GroupReplays(db, a, p))
    && (forall i | 0 <= i < |db.log| :: db.log[i].photo in db.photos)
  }

  predicate WellFormedDelta(delta: Delta) {
    WellFormedGroup(Filled(delta).group)
  }

  /** Group infos are built by their constructor, which rejects a role without a group. */
  predicate WellFormedOperation(op: DbOperation) {
    match op
    case AddPhotos(deltas) => forall i | 0 <= i < |deltas| :: WellFormedDelta(deltas[i])
    case Update(changes) => forall i | 0 <= i < |changes| :: WellFormedDelta(changes[i])
    case _ => true
  }

  // ----- steps -----

  lemma {:induction false} UpdateReplays(db: DB, a: Audit, delta: Delta)
    requires Replays(db, a) && WellFormedDelta(delta) && delta.id.Valid? && delta.id.value in db.photos
    ensures Replays(Updated(db, delta), UpdateAudited(a, delta))
  {
    var id := delta.id.value;
    var db', a' := Updated(db, delta), UpdateAudited(a, delta);
    forall p | p in db'.photos && p !in a'.withoutTags
      ensures TagsReplay(db', a', p)
    {
      UpdateReplaysTags(db, a, delta, p);
    }
    forall p | p in db'.photos && p !in a'.withoutGroup
      ensures GroupReplays(db', a', p)
    {
      UpdateReplaysGroup(db, a, delta, p);
    }
    EntriesOfUpdate(id, db.photos[id], delta);
    UpdatedFrame(db, delta);
  }

  lemma {:induction false} UpdateReplaysTags(db: DB, a: Audit, delta: Delta, p: int)
    requires delta.id.Valid? && delta.id.value in db.photos
    requires TagsReplay(db, a, p) && (p == delta.id.value ==> delta.tags.Some?)
    ensures TagsReplay(Updated(db, delta), UpdateAudited(a, delta), p)
  {
    if p == delta.id.value {
      UpdateKeepsTagsReplay(Raw(a.birth[p].tags), db.log, p, db.photos[p], delta);
    } else {
      OtherTagsReplay(db, a, delta, p);
    }
  }

  lemma {:induction false} OtherTagsReplay(db: DB, a: Audit, delta: Delta, p: int)
    requires delta.id.Valid? && delta.id.value in db.photos
    requires TagsReplay(db, a, p) && p != delta.id.value
    ensures TagsReplay(Updated(db, delta), UpdateAudited(a, delta), p)
  {
    var id := delta.id.value;
    ReplayTagsOfUpdate(Raw(a.birth[p].tags), db.log, id, db.photos[id], delta, p);
  }

  lemma {:induction false} UpdateReplaysGroup(db: DB, a: Audit, delta: Delta, p: int)
    requires delta.id.Valid? && delta.id.value in db.photos && WellFormedDelta(delta)
    requires GroupReplays(db, a, p) && WellFormedGroup(db.photos[p].group)
    requires p == delta.id.value ==> delta.group.Some?
    ensures GroupReplays(Updated(db, delta), UpdateAudited(a, delta), p)
  {
    if p == delta.id.value {
      UpdateKeepsGroupReplay(a.birth[p].group, db.log, p, db.photos[p], delta);
    } else {
      OtherGroupReplays(db, a, delta, p);
    }
  }

  lemma {:induction false} OtherGroupReplays(db: DB, a: Audit, delta: Delta, p: int)
    requires delta.id.Valid? && delta.id.value in db.photos
    requires GroupReplays(db, a, p) && p != delta.id.value
    ensures GroupReplays(Updated(db, delta), UpdateAudited(a, delta), p)
  {
    var id := delta.id.value;
    ReplayGroupOfUpdate(a.birth[p].group, db.log, id, db.photos[id], delta, p);
  }

  lemma {:induction false} EntriesOfUpdate(photo: int, current: Row, delta: Delta)
    ensures forall i | 0 <= i < |Difference(photo, current, delta)| ::
      Difference(photo, current, delta)[i].photo == photo
  {
    TagEntriesOfUpdate(photo, current, delta);
  }

  lemma {:induction false} TagEntriesOfUpdate(photo: int, current: Row, delta: Delta)
    ensures forall i | 0 <= i < |TagsPart(photo, current, delta)| :: TagsPart(photo, current, delta)[i].photo == photo
  {
    if delta.tags.Some? {
      TagsOnly(photo, current.tags, delta.tags.value);
    }
  }

  lemma {:induction false} UpdatesReplay(db: DB, a: Audit, deltas: seq<Delta>)
    requires Replays(db, a) && AllStored(db, deltas) && forall i | 0 <= i < |deltas| :: WellFormedDelta(deltas[i])
    ensures Replays(AllUpdated(db, deltas), UpdatesAudited(a, deltas))
  {
    if deltas != [] {
      var n := |deltas| - 1;
      UpdatesReplay(db, a, deltas[..n]);
      UpdatedRows(db, deltas[..n]);
      UpdateReplays(AllUpdated(db, deltas[..n]), UpdatesAudited(a, deltas[..n]), deltas[n]);
    }
  }

  lemma {:induction false} AddingReplays(db: DB, a: Audit, deltas: seq<Delta>)
    requires Replays(db, a) && forall i | 0 <= i < |deltas| :: WellFormedDelta(deltas[i])
    ensures Replays(AllAdded(db, deltas), a.(birth := a.birth + Births(db, deltas)))
  {
    var db', a' := AllAdded(db, deltas), a.(birth := a.birth + Births(db, deltas));
    AddedRows(db, deltas);
    forall p | p in db'.photos
      ensures WellFormedGroup(db'.photos[p].group)
      ensures p !in a'.withoutTags ==> TagsReplay(db', a', p)
      ensures p !in a'.withoutGroup ==> GroupReplays(db', a', p)
    {
      if p in db.photos {
        OldPhotoReplays(db, db', a, a', p);
      } else {
        AddedPhotoReplays(db, a, deltas, p);
      }
    }
  }

  lemma {:induction false} OldPhotoReplays(db: DB, db': DB, a: Audit, a': Audit, p: int)
    requires Replays(db, a) && p in db.photos && p in db'.photos && db'.photos[p] == db.photos[p] && db'.log == db.log
    requires a'.withoutTags == a.withoutTags && a'.withoutGroup == a.withoutGroup
    requires p in a.birth ==> p in a'.birth && a'.birth[p] == a.birth[p]
    ensures WellFormedGroup(db'.photos[p].group)
    ensures p !in a'.withoutTags ==> TagsReplay(db', a', p)
    ensures p !in a'.withoutGroup ==> GroupReplays(db', a', p)
  {
    assert p !in a.withoutTags ==> TagsReplay(db, a, p);
    assert p !in a.withoutGroup ==> GroupReplays(db, a, p);
  }

  lemma {:induction false} AddedPhotoReplays(db: DB, a: Audit, deltas: seq<Delta>, p: int)
    requires Replays(db, a) && forall i | 0 <= i < |deltas| :: WellFormedDelta(deltas[i])
    requires p in AllAdded(db, deltas).photos && p !in db.photos
    ensures
      var db', a' := AllAdded(db, deltas), a.(birth := a.birth + Births(db, deltas));
      WellFormedGroup(db'.photos[p].group) && TagsReplay(db', a', p) && GroupReplays(db', a', p)
  {
    var i := WhichIsNew(db, deltas, p);
    assert WellFormedDelta(deltas[i]);
    NewPhotoReplays(db, Filled(deltas[i]), p);
  }

  lemma {:induction false} WhichIsNew(db: DB, deltas: seq<Delta>, p: int) returns (i: nat)
    requires Inv(db) && p in AllAdded(db, deltas).photos && p !in db.photos
    ensures i < |deltas| && AllAdded(db, deltas).photos[p] == Filled(deltas[i]) && AllAdded(db, deltas).log == db.log
    ensures p in Births(db, deltas) && Births(db, deltas)[p] == Filled(deltas[i])
  {
    AddedRows(db, deltas);
    i := p - db.nextPhoto;
    assert NewIds(db, |deltas|)[i] == p;
  }

  /** The log says nothing yet about a photo that has just been added. */
  lemma {:induction false} NewPhotoReplays(db: DB, row: Row, p: int)
    requires p !in db.photos && forall i | 0 <= i < |db.log| :: db.log[i].photo in db.photos
    ensures ReplayTags(Raw(row.tags), db.log, p) == Raw(row.tags) && ReplayGroup(row.group, db.log, p) == row.group
  {
    ReplayTagsIgnores(Raw(row.tags), db.log, p);
    ReplayGroupIgnores(row.group, db.log, p);
  }

  lemma {:induction false} AddGroupReplays(db: DB, a: Audit, photo: int, kind: GroupType)
    requires Replays(db, a) && photo in db.photos
    ensures Replays(GroupAdded(db, photo, kind), UpdateAudited(a, RepresentativeDelta(photo, db.nextGroup)))
  {
    var db' := GroupFounded(db, photo, kind);
    FoundedInv(db, photo, kind);
    UpdateReplays(db', a, RepresentativeDelta(photo, db.nextGroup));
  }

  lemma {:induction false} RemoveGroupReplays(db: DB, a: Audit, g: int)
    requires Replays(db, a) && g in db.groups
    ensures Replays(GroupRemoved(db, Valid(g)).0, UpdatesAudited(a, Clearings(PhotosToClear(db, g))))
  {
    var db' := GroupDropped(db, g);
    DroppedInv(db, g);
    UpdatesReplay(db', a, Clearings(PhotosToClear(db, g)));
  }

  lemma {:induction false} OperationReplays(db: DB, a: Audit, op: DbOperation)
    requires Replays(db, a) && Allowed(db, op) && WellFormedOperation(op)
    ensures Replays(Applied(db, op), Audited(db, a, op))
  {
    match op
    case AddPhotos(deltas) => AddingReplays(db, a, deltas);
    case Update(changes) => UpdatesReplay(db, a, changes);
    case AddGroup(p, kind) => AddGroupReplays(db, a, p, kind);
    case RemoveGroup(g) =>
      if g.Valid? && g.value in db.groups {
        RemoveGroupReplays(db, a, g.value);
      }
    case _ => UnloggedOperationReplays(db, a, op);
  }

  lemma {:induction false} UnloggedOperationReplays(db: DB, a: Audit, op: DbOperation)
    requires Replays(db, a)
    requires op.SetFlag? || op.SetPHash? || op.WriteBlob? || op.StorePerson? || op.StoreName?
    ensures Replays(Applied(db, op), a)
  {
    match op
    case SetPHash(p, phash) => HashReplays(db, a, p, phash);
    case _ =>
      UnloggedFrame(db, op);
      SamePhotosReplay(db, Applied(db, op), a);
  }

  lemma {:induction false} SamePhotosReplay(db: DB, db': DB, a: Audit)
    requires Replays(db, a) && SamePhotosAndGroups(db, db')
    ensures Replays(db', a)
  {
    SameInv(db, db');
    UnloggedReplays(db, db', a);
  }

  lemma {:induction false} HashReplays(db: DB, a: Audit, photo: int, phash: Id)
    requires Replays(db, a)
    ensures Replays(PHashSet(db, photo, phash), a)
  {
    UnloggedReplays(db, PHashSet(db, photo, phash), a);
  }

  /** Operations that leave the log, the tags and the groups alone. */
  lemma {:induction false} UnloggedReplays(db: DB, db': DB, a: Audit)
    requires Replays(db, a) && Inv(db') && db'.log == db.log && db'.photos.Keys == db.photos.Keys
    requires forall p | p in db.photos :: db'.photos[p].tags == db.photos[p].tags
    requires forall p | p in db.photos :: db'.photos[p].group == db.photos[p].group
    ensures Replays(db', a)
  {
    forall p | p in db'.photos
      ensures p !in a.withoutTags ==> TagsReplay(db', a, p)
      ensures p !in a.withoutGroup ==> GroupReplays(db', a, p)
    {
      assert p !in a.withoutTags ==> TagsReplay(db, a, p);
      assert p !in a.withoutGroup ==> GroupReplays(db, a, p);
    }
  }

  predicate AllWellFormed(ops: seq<DbOperation>) {
    forall i | 0 <= i < |ops| :: WellFormedOperation(ops[i])
  }

  lemma {:induction false} OperationsReplay(ops: seq<DbOperation>)
    requires AllAllowed(EMPTY_DB, ops) && AllWellFormed(ops)
    ensures Replays(AppliedAll(EMPTY_DB, ops), AuditedAll(EMPTY_DB, ops))
  {
    if ops != [] {
      var n := |ops| - 1;
      OperationsReplay(ops[..n]);
      OperationReplays(AppliedAll(EMPTY_DB, ops[..n]), AuditedAll(EMPTY_DB, ops[..n]), ops[n]);
    }
  }

  /** After any run, with any nesting of transactions and any aborts, and for every photo none of whose
      effective updates lacked tags (or a group): replaying the log over the photo as it was added gives
      its stored tags (or group). */
  lemma {:induction false} LogReplaysInEveryRun(es: seq<Event>)
    requires Legal(INITIAL, es)
    requires AllWellFormed(Scanned(es).done + Scanned(es).running)
    ensures Replays(Run(INITIAL, es).db, AuditedAll(EMPTY_DB, Scanned(es).done + Scanned(es).running))
  {
    AbortedTransactionsLeaveNoTrace(INITIAL, es);
    OperationsReplay(Scanned(es).done + Scanned(es).running);
  }

  /** Founding or removing a group is such an update: a tagged photo that founds one loses its tags,
      and the log does not tell. */
  lemma {:induction false} FoundingAGroupLosesTags(db: DB, a: Audit, photo: int, kind: GroupType)
    requires Replays(db, a) && photo in db.photos && photo !in a.withoutTags
    ensures TagsReplay(GroupAdded(db, photo, kind), a, photo) <==> db.photos[photo].tags == map[]
  {
    var g := db.nextGroup;
    assert TagsReplay(db, a, photo);
    UpdateKeepsTagsReplay(Raw(a.birth[photo].tags), db.log, photo, db.photos[photo], RepresentativeDelta(photo, g));
  }
}
