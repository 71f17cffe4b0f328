/** What the entries of the change log say of the past: in every run, what an entry gives as the old state is what
    replaying the entries before it leads to. */
module LogPast {
  import opened Wrappers
  import opened PhotoData
  import opened ContainersUtils
  import opened ChangeLog
  import opened Database
  import opened InMemoryBackend
  import opened BackendRuns
  import opened ReplayRuns

  /** An addition is of a tag that was not there; a removal gives the text of the tag that was there, and a change
      its old text, which differs from the new one. */
  predicate TellsTags(before: RawTags, e: LogEntry) {
    match e.operation
    case Add => e.data.OneTag? && e.data.tag !in before
    case Remove => e.data.OneTag? && e.data.tag in before && before[e.data.tag] == e.data.raw
    case Modify =>
      && e.data.TwoTags? && e.data.changedTag in before
      && before[e.data.changedTag] == e.data.oldRaw && e.data.oldRaw != e.data.newRaw
  }

  /** A removal gives the group and the role that were there, and a change the old ones. */
  predicate TellsGroup(before: GroupInfo, e: LogEntry) {
    match e.operation
    case Add => e.data.OneGroup? && before == GroupInfo(Invalid, Alone)
    case Remove => e.data.OneGroup? && before == GroupInfo(Valid(e.data.group), e.data.role)
    case Modify => e.data.TwoGroups? && before == GroupInfo(Valid(e.data.oldGroup), e.data.oldRole)
  }

  /** The tag entries of `photo` tell what the entries before them lead to. */
  ghost predicate TagsTold(start: RawTags, log: Log, photo: int) {
    forall i | 0 <= i < |log| && log[i].photo == photo && log[i].field == TagsField ::
      TellsTags(ReplayTags(start, log[..i], photo), log[i])
  }

  ghost predicate GroupTold(start: GroupInfo, log: Log, photo: int) {
    forall i | 0 <= i < |log| && log[i].photo == photo && log[i].field == GroupField ::
      TellsGroup(ReplayGroup(start, log[..i], photo), log[i])
  }

  // ----- what one update appends -----

  lemma {:induction false} TagsToldTwice(start: RawTags, first: Log, second: Log, photo: int)
    requires TagsTold(start, first, photo) && TagsTold(ReplayTags(start, first, photo), second, photo)
    ensures TagsTold(start, first + second, photo)
  {
    var log := first + second;
    forall i | 0 <= i < |log| && log[i].photo == photo && log[i].field == TagsField
      ensures TellsTags(ReplayTags(start, log[..i], photo), log[i])
    {
      if i < |first| {
        assert log[..i] == first[..i];
      } else {
        assert log[..i] == first + second[..i - |first|];
        ReplayTagsTwice(start, first, second[..i - |first|], photo);
      }
    }
  }

  lemma {:induction false} GroupToldTwice(start: GroupInfo, first: Log, second: Log, photo: int)
    requires GroupTold(start, first, photo) && GroupTold(ReplayGroup(start, first, photo), second, photo)
    ensures GroupTold(start, first + second, photo)
  {
    var log := first + second;
    forall i | 0 <= i < |log| && log[i].photo == photo && log[i].field == GroupField
      ensures TellsGroup(ReplayGroup(start, log[..i], photo), log[i])
    {
      if i < |first| {
        assert log[..i] == first[..i];
      } else {
        assert log[..i] == first + second[..i - |first|];
        ReplayGroupTwice(start, first, second[..i - |first|], photo);
      }
    }
  }

  lemma {:induction false} RemovalsTell(was: Tags, keys: seq<TagType>, photo: int)
    requires Covers(was, keys) && Ascending(keys)
    ensures TagsTold(Raw(was), TagEntries(photo, Remove, Pairs(was, keys)), photo)
  {
    var log := TagEntries(photo, Remove, Pairs(was, keys));
    forall i | 0 <= i < |log|
      ensures TellsTags(ReplayTags(Raw(was), log[..i], photo), log[i])
    {
      assert log[..i] == TagEntries(photo, Remove, Pairs(was, keys[..i]));
      ReplayRemovals(Raw(was), was, keys[..i], photo);
      AfterErases(Raw(was), keys[..i]);
    }
  }

  lemma {:induction false} ChangesTell(start: RawTags, was: Tags, now: Tags, keys: seq<TagType>, photo: int)
    requires Covers(was, keys) && Covers(now, keys) && Ascending(keys)
    requires forall k | k in keys :: k in start && start[k] == was[k].raw && was[k].raw != now[k].raw
    ensures TagsTold(start, ChangeEntries(photo, Triples(was, now, keys)), photo)
  {
    var log := ChangeEntries(photo, Triples(was, now, keys));
    forall i | 0 <= i < |log|
      ensures TellsTags(ReplayTags(start, log[..i], photo), log[i])
    {
      assert log[..i] == ChangeEntries(photo, Triples(was, now, keys[..i]));
      ReplayChanges(start, was, now, keys[..i], photo);
      AfterPuts(start, Raw(now), keys[..i]);
      assert keys[i] in keys && keys[i] !in keys[..i];
    }
  }

  lemma {:induction false} AdditionsTell(start: RawTags, now: Tags, keys: seq<TagType>, photo: int)
    requires Covers(now, keys) && Ascending(keys) && forall k | k in keys :: k !in start
    ensures TagsTold(start, TagEntries(photo, Add, Pairs(now, keys)), photo)
  {
    var log := TagEntries(photo, Add, Pairs(now, keys));
    forall i | 0 <= i < |log|
      ensures TellsTags(ReplayTags(start, log[..i], photo), log[i])
    {
      assert log[..i] == TagEntries(photo, Add, Pairs(now, keys[..i]));
      ReplayAdditions(start, now, keys[..i], photo);
      AfterPuts(start, Raw(now), keys[..i]);
      assert keys[i] in keys && keys[i] !in keys[..i];
    }
  }

  lemma {:induction false} TagsDifferenceTells(was: Tags, now: Tags, photo: int)
    ensures TagsTold(Raw(was), TagsDifference(photo, was, now), photo)
  {
    var gone, changed, added := RemovedKeys(was, now), ChangedKeys(was, now, RawDiffers), RemovedKeys(now, was);
    var first := TagEntries(photo, Remove, Pairs(was, gone));
    var second := ChangeEntries(photo, Triples(was, now, changed));
    var third := TagEntries(photo, Add, Pairs(now, added));
    DiffIsExact(was, now, RawDiffers);
    RemovalsTell(was, gone, photo);
    ReplayRemovals(Raw(was), was, gone, photo);
    AfterErases(Raw(was), gone);
    var kept := Edited(Raw(was), Erases(gone));
    ChangesTell(kept, was, now, changed, photo);
    TagsToldTwice(Raw(was), first, second, photo);
    ReplayChanges(kept, was, now, changed, photo);
    AfterPuts(kept, Raw(now), changed);
    ReplayTagsTwice(Raw(was), first, second, photo);
    AdditionsTell(Edited(kept, Puts(Raw(now), changed)), now, added, photo);
    TagsToldTwice(Raw(was), first + second, third, photo);
  }

  lemma {:induction false} GroupDifferenceTells(was: GroupInfo, now: GroupInfo, photo: int)
    requires WellFormedGroup(was)
    ensures GroupTold(was, GroupDifference(photo, was, now), photo)
  {
    var log := GroupDifference(photo, was, now);
    assert log != [] ==> log[..0] == [];
  }

  lemma {:induction false} NothingTold(start: RawTags, group: GroupInfo, log: Log, photo: int)
    requires forall i | 0 <= i < |log| :: log[i].photo != photo
    ensures TagsTold(start, log, photo) && GroupTold(group, log, photo)
  {
  }

  /** The entries of an update of the photo itself that carries tags, and of one that carries a group. */
  lemma {:induction false} UpdateTellsTags(current: Row, delta: Delta, photo: int)
    requires delta.tags.Some?
    ensures TagsTold(Raw(current.tags), Difference(photo, current, delta), photo)
  {
    var tags, group := TagsPart(photo, current, delta), GroupPart(photo, current, delta);
    TagsDifferenceTells(current.tags, delta.tags.value, photo);
    GroupEntriesAreNoTags(ReplayTags(Raw(current.tags), tags, photo), current, delta, photo);
    TagsToldTwice(Raw(current.tags), tags, group, photo);
  }

  lemma {:induction false} UpdateTellsGroup(current: Row, delta: Delta, photo: int)
    requires delta.group.Some? && WellFormedGroup(current.group)
    ensures GroupTold(current.group, Difference(photo, current, delta), photo)
  {
    var tags, group := TagsPart(photo, current, delta), GroupPart(photo, current, delta);
    TagEntriesAreNoGroup(current, delta, photo);
    TagsPartIsNoGroup(current.group, photo, current, delta, photo);
    GroupDifferenceTells(current.group, delta.group.value, photo);
    GroupToldTwice(current.group, tags, group, photo);
  }

  lemma {:induction false} GroupEntriesAreNoTags(start: RawTags, current: Row, delta: Delta, photo: int)
    ensures TagsTold(start, GroupPart(photo, current, delta), photo)
  {
    assert forall i | 0 <= i < |GroupPart(photo, current, delta)| ::
      GroupPart(photo, current, delta)[i].field == GroupField;
  }

  lemma {:induction false} TagEntriesAreNoGroup(current: Row, delta: Delta, photo: int)
    ensures GroupTold(current.group, TagsPart(photo, current, delta), photo)
  {
    if delta.tags.Some? {
      TagsOnly(photo, current.tags, delta.tags.value);
    }
  }

  // ----- over runs -----

  ghost predicate TagsToldOf(db: DB, a: Audit, p: int) {
    p in a.birth && TagsTold(Raw(a.birth[p].tags), db.log, p)
  }

  ghost predicate GroupToldOf(db: DB, a: Audit, p: int) {
    p in a.birth && GroupTold(a.birth[p].group, db.log, p)
  }

  /** The log tells the past of every photo whose updates all carried the field. */
  ghost predicate PastIsTold(db: DB, a: Audit) {
    && (forall p | p in db.photos && p !in a.withoutTags :: TagsToldOf(db, a, p))
    && (forall p | p in db.photos && p !in a.withoutGroup :: GroupToldOf(db, a, p))
  }

  lemma {:induction false} UpdateTells(db: DB, a: Audit, delta: Delta)
    requires Replays(db, a) && PastIsTold(db, a) && delta.id.Valid? && delta.id.value in db.photos
    ensures PastIsTold(Updated(db, delta), UpdateAudited(a, delta))
  {
    var db', a' := Updated(db, delta), UpdateAudited(a, delta);
    forall p | p in db'.photos && p !in a'.withoutTags
      ensures TagsToldOf(db', a', p)
    {
      UpdateTellsTagsOf(db, a, delta, p);
    }
    forall p | p in db'.photos && p !in a'.withoutGroup
      ensures GroupToldOf(db', a', p)
    {
      UpdateTellsGroupOf(db, a, delta, p);
    }
  }

  lemma {:induction false} UpdateTellsTagsOf(db: DB, a: Audit, delta: Delta, p: int)
    requires delta.id.Valid? && delta.id.value in db.photos && (p == delta.id.value ==> delta.tags.Some?)
    requires TagsReplay(db, a, p) && TagsToldOf(db, a, p)
    ensures TagsToldOf(Updated(db, delta), UpdateAudited(a, delta), p)
  {
    TagsGoOn(Raw(a.birth[p].tags), db.log, delta.id.value, db.photos[delta.id.value], delta, p);
  }

  lemma {:induction false} TagsGoOn(start: RawTags, log: Log, photo: int, current: Row, delta: Delta, p: int)
    requires TagsTold(start, log, p)
    requires p == photo ==> delta.tags.Some? && ReplayTags(start, log, p) == Raw(current.tags)
    ensures TagsTold(start, log + Difference(photo, current, delta), p)
  {
    if p == photo {
      UpdateTellsTags(current, delta, p);
    } else {
      EntriesOfUpdate(photo, current, delta);
      NothingTold(ReplayTags(start, log, p), NO_GROUP, Difference(photo, current, delta), p);
    }
    TagsToldTwice(start, log, Difference(photo, current, delta), p);
  }

  lemma {:induction false} UpdateTellsGroupOf(db: DB, a: Audit, delta: Delta, p: int)
    requires delta.id.Valid? && delta.id.value in db.photos && (p == delta.id.value ==> delta.group.Some?)
    requires GroupReplays(db, a, p) && GroupToldOf(db, a, p) && WellFormedGroup(db.photos[p].group)
    ensures GroupToldOf(Updated(db, delta), UpdateAudited(a, delta), p)
  {
    GroupGoesOn(a.birth[p].group, db.log, delta.id.value, db.photos[delta.id.value], delta, p);
  }

  lemma {:induction false} GroupGoesOn(start: GroupInfo, log: Log, photo: int, current: Row, delta: Delta, p: int)
    requires GroupTold(start, log, p)
    requires p == photo ==>
      delta.group.Some? && WellFormedGroup(current.group) && ReplayGroup(start, log, p) == current.group
    ensures GroupTold(start, log + Difference(photo, current, delta), p)
  {
    if p == photo {
      UpdateTellsGroup(current, delta, p);
    } else {
      EntriesOfUpdate(photo, current, delta);
      NothingTold(map[], ReplayGroup(start, log, p), Difference(photo, current, delta), p);
    }
    GroupToldTwice(start, log, Difference(photo, current, delta), p);
  }

  lemma {:induction false} UpdatesTell(db: DB, a: Audit, deltas: seq<Delta>)
    requires Replays(db, a) && PastIsTold(db, a)
    requires AllStored(db, deltas) && forall i | 0 <= i < |deltas| :: WellFormedDelta(deltas[i])
    ensures PastIsTold(AllUpdated(db, deltas), UpdatesAudited(a, deltas))
  {
    if deltas != [] {
      var n := |deltas| - 1;
      UpdatesTell(db, a, deltas[..n]);
      UpdatesReplay(db, a, deltas[..n]);
      UpdatedRows(db, deltas[..n]);
      UpdateTells(AllUpdated(db, deltas[..n]), UpdatesAudited(a, deltas[..n]), deltas[n]);
    }
  }

  lemma {:induction false} AddingTells(db: DB, a: Audit, deltas: seq<Delta>)
    requires Replays(db, a) && PastIsTold(db, a)
    ensures PastIsTold(AllAdded(db, deltas), a.(birth := a.birth + Births(db, deltas)))
  {
    var db', a' := AllAdded(db, deltas), a.(birth := a.birth + Births(db, deltas));
    AddedRows(db, deltas);
    forall p | p in db'.photos
      ensures p !in a'.withoutTags ==> TagsToldOf(db', a', p)
      ensures p !in a'.withoutGroup ==> GroupToldOf(db', a', p)
    {
      if p in db.photos {
        assert p !in Births(db, deltas);
        assert p !in a.withoutTags ==> TagsToldOf(db, a, p);
        assert p !in a.withoutGroup ==> GroupToldOf(db, a, p);
      } else {
        NewPhotoIsTold(db, a, deltas, p);
      }
    }
  }

  lemma {:induction false} NewPhotoIsTold(db: DB, a: Audit, deltas: seq<Delta>, p: int)
    requires Replays(db, a) && p in AllAdded(db, deltas).photos && p !in db.photos
    ensures TagsToldOf(AllAdded(db, deltas), a.(birth := a.birth + Births(db, deltas)), p)
    ensures GroupToldOf(AllAdded(db, deltas), a.(birth := a.birth + Births(db, deltas)), p)
  {
    var i := WhichIsNew(db, deltas, p);
    var row := Filled(deltas[i]);
    NothingTold(Raw(row.tags), row.group, db.log, p);
  }

  lemma {:induction false} SameLogTells(db: DB, db': DB, a: Audit)
    requires PastIsTold(db, a) && db'.log == db.log && db'.photos.Keys == db.photos.Keys
    ensures PastIsTold(db', a)
  {
    forall p | p in db'.photos
      ensures p !in a.withoutTags ==> TagsToldOf(db', a, p)
      ensures p !in a.withoutGroup ==> GroupToldOf(db', a, p)
    {
      assert p !in a.withoutTags ==> TagsToldOf(db, a, p);
      assert p !in a.withoutGroup ==> GroupToldOf(db, a, p);
    }
  }

  lemma {:induction false} AddGroupTells(db: DB, a: Audit, photo: int, kind: GroupType)
    requires Replays(db, a) && PastIsTold(db, a) && photo in db.photos
    ensures PastIsTold(GroupAdded(db, photo, kind), UpdateAudited(a, RepresentativeDelta(photo, db.nextGroup)))
  {
    var founded := GroupFounded(db, photo, kind);
    FoundedInv(db, photo, kind);
    UnloggedReplays(db, founded, a);
    SameLogTells(db, founded, a);
    UpdateTells(founded, a, RepresentativeDelta(photo, db.nextGroup));
  }

  lemma {:induction false} RemoveGroupTells(db: DB, a: Audit, g: int)
    requires Replays(db, a) && PastIsTold(db, a) && g in db.groups
    ensures PastIsTold(GroupRemoved(db, Valid(g)).0, UpdatesAudited(a, Clearings(PhotosToClear(db, g))))
  {
    var dropped := GroupDropped(db, g);
    DroppedInv(db, g);
    UnloggedReplays(db, dropped, a);
    SameLogTells(db, dropped, a);
    UpdatesTell(dropped, a, Clearings(PhotosToClear(db, g)));
  }

  lemma {:induction false} OperationTells(db: DB, a: Audit, op: DbOperation)
    requires Replays(db, a) && PastIsTold(db, a) && Allowed(db, op) && WellFormedOperation(op)
    ensures PastIsTold(Applied(db, op), Audited(db, a, op))
  {
    match op
    case AddPhotos(deltas) => AddingTells(db, a, deltas);
    case Update(changes) => UpdatesTell(db, a, changes);
    case AddGroup(p, kind) => AddGroupTells(db, a, p, kind);
    case RemoveGroup(g) =>
      if g.Valid? && g.value in db.groups {
        RemoveGroupTells(db, a, g.value);
      }
    case SetPHash(p, phash) => SameLogTells(db, PHashSet(db, p, phash), a);
    case _ =>
      UnloggedFrame(db, op);
      SameLogTells(db, Applied(db, op), a);
  }

  lemma {:induction false} OperationsTell(ops: seq<DbOperation>)
    requires AllAllowed(EMPTY_DB, ops) && AllWellFormed(ops)
    ensures PastIsTold(AppliedAll(EMPTY_DB, ops), AuditedAll(EMPTY_DB, ops))
  {
    if ops != [] {
      var n := |ops| - 1;
      OperationsTell(ops[..n]);
      OperationsReplay(ops[..n]);
      OperationTells(AppliedAll(EMPTY_DB, ops[..n]), AuditedAll(EMPTY_DB, ops[..n]), ops[n]);
    }
  }

  /** After any run, with any nesting of transactions and any aborts: every entry of a photo whose effective updates
      all carried the field tells the past as the replay of the entries before it has it. */
  lemma {:induction false} PastIsToldInEveryRun(es: seq<Event>)
    requires Legal(INITIAL, es)
    requires AllWellFormed(Scanned(es).done + Scanned(es).running)
    ensures PastIsTold(Run(INITIAL, es).db, AuditedAll(EMPTY_DB, Scanned(es).done + Scanned(es).running))
  {
    AbortedTransactionsLeaveNoTrace(INITIAL, es);
    OperationsTell(Scanned(es).done + Scanned(es).running);
  }
}
