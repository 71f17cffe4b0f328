/** The photo change log: what an update appends, and replaying the log. */
module ChangeLog {
  import opened Wrappers
  import opened PhotoData
  import opened ContainersUtils

  datatype Operation = Add | Modify | Remove

  /** The data of an entry; the source keeps it as text, of which LogText is the model. */
  datatype Payload =
    | OneTag(tag: TagType, raw: string)
    | TwoTags(changedTag: TagType, oldRaw: string, newRaw: string)
    | OneGroup(group: int, role: Role)
    | TwoGroups(oldGroup: int, newGroup: int, oldRole: Role, newRole: Role)

  datatype Field = TagsField | GroupField

  datatype LogEntry = LogEntry(photo: int, operation: Operation, field: Field, data: Payload)

  type Log = seq<LogEntry>

  // ----- what is appended -----

  predicate RawDiffers(a: TagValue, b: TagValue) {
    a.raw != b.raw
  }

  function TagEntries(photo: int, operation: Operation, tags: seq<(TagType, TagValue)>): (r: Log)
    ensures |r| == |tags|
    ensures forall i | 0 <= i < |r| :: r[i] == LogEntry(photo, operation, TagsField, OneTag(tags[i].0, tags[i].1.raw))
  {
    seq(|tags|, i requires 0 <= i < |tags| => LogEntry(photo, operation, TagsField, OneTag(tags[i].0, tags[i].1.raw)))
  }

  function ChangeEntries(photo: int, tags: seq<(TagType, TagValue, TagValue)>): (r: Log)
    ensures |r| == |tags|
    ensures forall i | 0 <= i < |r| ::
      r[i] == LogEntry(photo, Modify, TagsField, TwoTags(tags[i].0, tags[i].1.raw, tags[i].2.raw))
  {
    seq(|tags|, i requires 0 <= i < |tags| =>
      LogEntry(photo, Modify, TagsField, TwoTags(tags[i].0, tags[i].1.raw, tags[i].2.raw)))
  }

  function TagsDifference(photo: int, oldTags: Tags, newTags: Tags): Log {
    TagEntries(photo, Remove, Pairs(oldTags, RemovedKeys(oldTags, newTags))) +
    ChangeEntries(photo, Triples(oldTags, newTags, ChangedKeys(oldTags, newTags, RawDiffers))) +
    TagEntries(photo, Add, Pairs(newTags, RemovedKeys(newTags, oldTags)))
  }

  function GroupDifference(photo: int, was: GroupInfo, now: GroupInfo): Log {
    if was.groupId.Valid? && now.groupId.Valid? then
      [LogEntry(photo, Modify, GroupField, TwoGroups(was.groupId.value, now.groupId.value, was.role, now.role))]
    else if was.groupId.Valid? then
      [LogEntry(photo, Remove, GroupField, OneGroup(was.groupId.value, was.role))]
    else if now.groupId.Valid? then
      [LogEntry(photo, Add, GroupField, OneGroup(now.groupId.value, now.role))]
    else []
  }

  function TagsPart(photo: int, current: Row, delta: Delta): Log {
    if delta.tags.Some? then TagsDifference(photo, current.tags, delta.tags.value) else []
  }

  function GroupPart(photo: int, current: Row, delta: Delta): Log {
    if delta.group.Some? then GroupDifference(photo, current.group, delta.group.value) else []
  }

  /** All that one update appends. */
  function Difference(photo: int, current: Row, delta: Delta): Log {
    TagsPart(photo, current, delta) + GroupPart(photo, current, delta)
  }

  /** process(Tags): the log is passed in and returned with the new entries appended. */
  method ProcessTags(log: Log, photo: int, oldTags: Tags, newTags: Tags) returns (log': Log)
    ensures log' == log + TagsDifference(photo, oldTags, newTags)
  {
    var tagsRemoved, tagsChanged, tagsAdded := Compare(oldTags, newTags, RawDiffers);
    ghost var first, second := TagEntries(photo, Remove, tagsRemoved), ChangeEntries(photo, tagsChanged);
    ghost var third := TagEntries(photo, Add, tagsAdded);
    log' := AppendTags(log, photo, Remove, tagsRemoved);
    log' := AppendChanges(log', photo, tagsChanged);
    log' := AppendTags(log', photo, Add, tagsAdded);
    assert log' == log + first + second + third;
    Associative(log, first, second);
    Associative(log, first + second, third);
  }

  method AppendTags(log: Log, photo: int, operation: Operation, tags: seq<(TagType, TagValue)>) returns (log': Log)
    ensures log' == log + TagEntries(photo, operation, tags)
  {
    log' := log;
    for i := 0 to |tags|
      invariant log' == log + TagEntries(photo, operation, tags)[..i]
    {
      log' := log' + [LogEntry(photo, operation, TagsField, OneTag(tags[i].0, tags[i].1.raw))];
    }
  }

  method AppendChanges(log: Log, photo: int, tags: seq<(TagType, TagValue, TagValue)>) returns (log': Log)
    ensures log' == log + ChangeEntries(photo, tags)
  {
    log' := log;
    for i := 0 to |tags|
      invariant log' == log + ChangeEntries(photo, tags)[..i]
    {
      log' := log' + [LogEntry(photo, Modify, TagsField, TwoTags(tags[i].0, tags[i].1.raw, tags[i].2.raw))];
    }
  }

  /** storeDifference. */
  method StoreDifference(log: Log, photo: int, current: Row, delta: Delta) returns (log': Log)
    ensures log' == log + Difference(photo, current, delta)
  {
    log' := log;
    ghost var tags, group := TagsPart(photo, current, delta), GroupPart(photo, current, delta);
    if delta.tags.Some? {
      log' := ProcessTags(log', photo, current.tags, delta.tags.value);
    }
    assert log' == log + tags;
    if delta.group.Some? {
      log' := log' + GroupDifference(photo, current.group, delta.group.value);
    }
    assert log' == log + tags + group;
    Associative(log, tags, group);
  }

  lemma {:induction false} Associative(a: Log, b: Log, c: Log)
    ensures a + b + c == a + (b + c)
  {
  }

  // ----- replay -----

  type RawTags = map<TagType, string>

  function Raw(tags: Tags): RawTags {
    map t | t in tags :: tags[t].raw
  }

  function TagsAfter(tags: RawTags, e: LogEntry): RawTags {
    match e.data
    case OneTag(t, raw) => if e.operation == Remove then tags - {t} else tags[t := raw]
    case TwoTags(t, _, raw) => tags[t := raw]
    case _ => tags
  }

  /** The tags of `photo` after its logged tag entries, starting from `tags`. */
  function ReplayTags(tags: RawTags, log: Log, photo: int): RawTags {
    if log == [] then tags
    else
      var last := log[|log| - 1];
      var before := ReplayTags(tags, log[..|log| - 1], photo);
      if last.photo == photo && last.field == TagsField then TagsAfter(before, last) else before
  }

  function GroupAfter(group: GroupInfo, e: LogEntry): GroupInfo {
    match e.data
    case OneGroup(g, role) => if e.operation == Remove then NO_GROUP else GroupInfo(Valid(g), role)
    case TwoGroups(_, g, _, role) => GroupInfo(Valid(g), role)
    case _ => group
  }

  /** The group of `photo` after its logged group entries, starting from `group`. */
  function ReplayGroup(group: GroupInfo, log: Log, photo: int): GroupInfo {
    if log == [] then group
    else
      var last := log[|log| - 1];
      var before := ReplayGroup(group, log[..|log| - 1], photo);
      if last.photo == photo && last.field == GroupField then GroupAfter(before, last) else before
  }

  lemma {:induction false} ReplayTagsTwice(tags: RawTags, first: Log, second: Log, photo: int)
    ensures ReplayTags(tags, first + second, photo) == ReplayTags(ReplayTags(tags, first, photo), second, photo)
  {
    if second == [] {
      assert first + second == first;
    } else {
      var n := |second| - 1;
      assert (first + second)[..|first| + n] == first + second[..n];
      ReplayTagsTwice(tags, first, second[..n], photo);
    }
  }

  lemma {:induction false} ReplayGroupTwice(group: GroupInfo, first: Log, second: Log, photo: int)
    ensures ReplayGroup(group, first + second, photo) == ReplayGroup(ReplayGroup(group, first, photo), second, photo)
  {
    if second == [] {
      assert first + second == first;
    } else {
      var n := |second| - 1;
      assert (first + second)[..|first| + n] == first + second[..n];
      ReplayGroupTwice(group, first, second[..n], photo);
    }
  }

  /** Entries of other photos, or of the other field, change nothing. */
  lemma {:induction false} ReplayTagsIgnores(tags: RawTags, log: Log, photo: int)
    requires forall i | 0 <= i < |log| :: log[i].photo != photo || log[i].field != TagsField
    ensures ReplayTags(tags, log, photo) == tags
  {
    if log != [] {
      ReplayTagsIgnores(tags, log[..|log| - 1], photo);
    }
  }

  lemma {:induction false} ReplayGroupIgnores(group: GroupInfo, log: Log, photo: int)
    requires forall i | 0 <= i < |log| :: log[i].photo != photo || log[i].field != GroupField
    ensures ReplayGroup(group, log, photo) == group
  {
    if log != [] {
      ReplayGroupIgnores(group, log[..|log| - 1], photo);
    }
  }

  lemma {:induction false} ReplayRemovals(tags: RawTags, source: Tags, keys: seq<TagType>, photo: int)
    requires Covers(source, keys)
    ensures ReplayTags(tags, TagEntries(photo, Remove, Pairs(source, keys)), photo) == Edited(tags, Erases(keys))
  {
    if keys != [] {
      var n := |keys| - 1;
      assert TagEntries(photo, Remove, Pairs(source, keys))[..n] == TagEntries(photo, Remove, Pairs(source, keys[..n]));
      assert Erases<string>(keys)[..n] == Erases<string>(keys[..n]);
      ReplayRemovals(tags, source, keys[..n], photo);
    }
  }

  lemma {:induction false} ReplayAdditions(tags: RawTags, source: Tags, keys: seq<TagType>, photo: int)
    requires Covers(source, keys)
    ensures Covers(Raw(source), keys)
    ensures
      ReplayTags(tags, TagEntries(photo, Add, Pairs(source, keys)), photo) == Edited(tags, Puts(Raw(source), keys))
  {
    if keys != [] {
      var n := |keys| - 1;
      assert TagEntries(photo, Add, Pairs(source, keys))[..n] == TagEntries(photo, Add, Pairs(source, keys[..n]));
      ReplayAdditions(tags, source, keys[..n], photo);
      assert Puts(Raw(source), keys)[..n] == Puts(Raw(source), keys[..n]);
    }
  }

  lemma {:induction false} ReplayChanges(tags: RawTags, was: Tags, now: Tags, keys: seq<TagType>, photo: int)
    requires Covers(was, keys) && Covers(now, keys)
    ensures Covers(Raw(now), keys)
    ensures ReplayTags(tags, ChangeEntries(photo, Triples(was, now, keys)), photo) == Edited(tags, Puts(Raw(now), keys))
  {
    if keys != [] {
      var n := |keys| - 1;
      assert ChangeEntries(photo, Triples(was, now, keys))[..n] == ChangeEntries(photo, Triples(was, now, keys[..n]));
      ReplayChanges(tags, was, now, keys[..n], photo);
      assert Puts(Raw(now), keys)[..n] == Puts(Raw(now), keys[..n]);
    }
  }

  /** Replaying what one update logged about the tags turns the old tags into the new ones. */
  lemma {:induction false} ReplayTagsDifference(was: Tags, now: Tags, photo: int)
    ensures ReplayTags(Raw(was), TagsDifference(photo, was, now), photo) == Raw(now)
  {
    var gone, changed, added := RemovedKeys(was, now), ChangedKeys(was, now, RawDiffers), RemovedKeys(now, was);
    var first := TagEntries(photo, Remove, Pairs(was, gone));
    var second := ChangeEntries(photo, Triples(was, now, changed));
    var third := TagEntries(photo, Add, Pairs(now, added));
    ReplayTagsTwice(Raw(was), first, second, photo);
    ReplayTagsTwice(Raw(was), first + second, third, photo);
    ReplayRemovals(Raw(was), was, gone, photo);
    AfterErases(Raw(was), gone);
    var kept := Edited(Raw(was), Erases(gone));
    ReplayChanges(kept, was, now, changed, photo);
    AfterPuts(kept, Raw(now), changed);
    var edited := Edited(kept, Puts(Raw(now), changed));
    ReplayAdditions(edited, now, added, photo);
    AfterPuts(edited, Raw(now), added);
    SameRaw(was, now, Edited(edited, Puts(Raw(now), added)));
  }

  lemma {:induction false} SameRaw(was: Tags, now: Tags, result: RawTags)
    requires forall t :: t in result <==>
      (t in was && t in now) || t in ChangedKeys(was, now, RawDiffers) || t in RemovedKeys(now, was)
    requires forall t | t in result :: (result[t] ==
      if t in RemovedKeys(now, was) || t in ChangedKeys(was, now, RawDiffers) then Raw(now)[t] else Raw(was)[t])
    ensures result == Raw(now)
  {
    forall t
      ensures t in result <==> t in now
      ensures t in now ==> result[t] == now[t].raw
    {
    }
  }

  lemma {:induction false} ReplayGroupDifference(was: GroupInfo, now: GroupInfo, photo: int)
    requires WellFormedGroup(was) && WellFormedGroup(now)
    ensures ReplayGroup(was, GroupDifference(photo, was, now), photo) == now
  {
    var log := GroupDifference(photo, was, now);
    if log != [] {
      assert log[..0] == [];
    }
  }

  /** Every entry is about this photo and field. */
  ghost predicate Only(log: Log, photo: int, field: Field) {
    forall i | 0 <= i < |log| :: log[i].photo == photo && log[i].field == field
  }

  lemma {:induction false} TagsOnly(photo: int, was: Tags, now: Tags)
    ensures Only(TagsDifference(photo, was, now), photo, TagsField)
  {
    var first := TagEntries(photo, Remove, Pairs(was, RemovedKeys(was, now)));
    var second := ChangeEntries(photo, Triples(was, now, ChangedKeys(was, now, RawDiffers)));
    var third := TagEntries(photo, Add, Pairs(now, RemovedKeys(now, was)));
    assert Only(first, photo, TagsField) && Only(second, photo, TagsField) && Only(third, photo, TagsField);
    OnlyTogether(first, second, photo, TagsField);
    OnlyTogether(first + second, third, photo, TagsField);
  }

  function Rank(operation: Operation): nat {
    match operation case Remove => 0 case Modify => 1 case Add => 2
  }

  function EntryTag(e: LogEntry): int {
    match e.data
    case OneTag(tag, _) => tag
    case TwoTags(tag, _, _) => tag
    case _ => 0
  }

  /** Removals come first, then changes, then additions, each kind in the order of the tags. */
  ghost predicate InEntryOrder(log: Log) {
    forall i, j | 0 <= i < j < |log| ::
      || Rank(log[i].operation) < Rank(log[j].operation)
      || (log[i].operation == log[j].operation && EntryTag(log[i]) < EntryTag(log[j]))
  }

  ghost predicate Ranked(log: Log, low: nat, high: nat) {
    forall i | 0 <= i < |log| :: low <= Rank(log[i].operation) <= high
  }

  lemma {:induction false} DifferenceIsInOrder(photo: int, was: Tags, now: Tags)
    ensures InEntryOrder(TagsDifference(photo, was, now))
  {
    DifferingAscends(CommonKeys(was, now), was, now, RawDiffers);
    TagEntriesInOrder(photo, Remove, was, RemovedKeys(was, now));
    ChangeEntriesInOrder(photo, was, now, ChangedKeys(was, now, RawDiffers));
    TagEntriesInOrder(photo, Add, now, RemovedKeys(now, was));
    var first := TagEntries(photo, Remove, Pairs(was, RemovedKeys(was, now)));
    var second := ChangeEntries(photo, Triples(was, now, ChangedKeys(was, now, RawDiffers)));
    OrderTogether(first, second, 0, 1);
    OrderTogether(first + second, TagEntries(photo, Add, Pairs(now, RemovedKeys(now, was))), 1, 2);
  }

  lemma {:induction false} TagEntriesInOrder(photo: int, operation: Operation, source: Tags, keys: seq<TagType>)
    requires Covers(source, keys) && Ascending(keys)
    ensures var log := TagEntries(photo, operation, Pairs(source, keys));
      InEntryOrder(log) && Ranked(log, Rank(operation), Rank(operation))
  {
  }

  lemma {:induction false} ChangeEntriesInOrder(photo: int, was: Tags, now: Tags, keys: seq<TagType>)
    requires Covers(was, keys) && Covers(now, keys) && Ascending(keys)
    ensures var log := ChangeEntries(photo, Triples(was, now, keys)); InEntryOrder(log) && Ranked(log, 1, 1)
  {
  }

  lemma {:induction false} OrderTogether(first: Log, second: Log, low: nat, high: nat)
    requires InEntryOrder(first) && InEntryOrder(second) && low < high
    requires Ranked(first, 0, low) && Ranked(second, high, high)
    ensures InEntryOrder(first + second) && Ranked(first + second, 0, high)
  {
  }

  /** The entries of an update: those of the tags, then the one of the group. */
  lemma {:induction false} GroupComesLast(photo: int, current: Row, delta: Delta, i: nat, j: nat)
    requires i < j < |Difference(photo, current, delta)|
    ensures Difference(photo, current, delta)[i].field == TagsField
  {
    if delta.tags.Some? {
      TagsOnly(photo, current.tags, delta.tags.value);
    }
  }

  lemma {:induction false} OnlyTogether(first: Log, second: Log, photo: int, field: Field)
    requires Only(first, photo, field) && Only(second, photo, field)
    ensures Only(first + second, photo, field)
  {
  }

  /** What an update's entries do to the replayed tags of a photo: nothing for other photos; for the
      updated one they lead to the new tags if the update carried tags, and change nothing if not. */
  lemma {:induction false} ReplayTagsOfUpdate(start: RawTags, log: Log, photo: int, current: Row, delta: Delta,
      other: int)
    ensures ReplayTags(start, log + Difference(photo, current, delta), other) ==
      if other == photo then ReplayTags(ReplayTags(start, log, photo), TagsPart(photo, current, delta), photo)
      else ReplayTags(start, log, other)
  {
    var before := ReplayTags(start, log, other);
    var tags, group := TagsPart(photo, current, delta), GroupPart(photo, current, delta);
    ReplayTagsTwice(start, log, tags + group, other);
    ReplayTagsTwice(before, tags, group, other);
    GroupPartIsNoTags(ReplayTags(before, tags, other), photo, current, delta, other);
    if other != photo {
      TagsPartIsOfPhoto(before, photo, current, delta, other);
    }
  }

  lemma {:induction false} GroupPartIsNoTags(start: RawTags, photo: int, current: Row, delta: Delta, other: int)
    ensures ReplayTags(start, GroupPart(photo, current, delta), other) == start
  {
    ReplayTagsIgnores(start, GroupPart(photo, current, delta), other);
  }

  lemma {:induction false} TagsPartIsOfPhoto(start: RawTags, photo: int, current: Row, delta: Delta, other: int)
    requires other != photo
    ensures ReplayTags(start, TagsPart(photo, current, delta), other) == start
  {
    if delta.tags.Some? {
      TagsOnly(photo, current.tags, delta.tags.value);
    }
    ReplayTagsIgnores(start, TagsPart(photo, current, delta), other);
  }

  lemma {:induction false} TagsPartIsNoGroup(start: GroupInfo, photo: int, current: Row, delta: Delta, other: int)
    ensures ReplayGroup(start, TagsPart(photo, current, delta), other) == start
  {
    if delta.tags.Some? {
      TagsOnly(photo, current.tags, delta.tags.value);
    }
    ReplayGroupIgnores(start, TagsPart(photo, current, delta), other);
  }

  lemma {:induction false} GroupPartIsOfPhoto(start: GroupInfo, photo: int, current: Row, delta: Delta, other: int)
    requires other != photo
    ensures ReplayGroup(start, GroupPart(photo, current, delta), other) == start
  {
    ReplayGroupIgnores(start, GroupPart(photo, current, delta), other);
  }

  lemma {:induction false} ReplayGroupOfUpdate(start: GroupInfo, log: Log, photo: int, current: Row, delta: Delta,
      other: int)
    ensures ReplayGroup(start, log + Difference(photo, current, delta), other) ==
      if other == photo then ReplayGroup(ReplayGroup(start, log, photo), GroupPart(photo, current, delta), photo)
      else ReplayGroup(start, log, other)
  {
    var before := ReplayGroup(start, log, other);
    var tags, group := TagsPart(photo, current, delta), GroupPart(photo, current, delta);
    ReplayGroupTwice(start, log, tags + group, other);
    ReplayGroupTwice(before, tags, group, other);
    TagsPartIsNoGroup(before, photo, current, delta, other);
    if other != photo {
      GroupPartIsOfPhoto(before, photo, current, delta, other);
    }
  }

  /** One update keeps the replayed tags equal to the stored ones if and only if it carries tags or
      the photo had none: an update without them clears the stored tags and logs nothing. */
  lemma {:induction false} UpdateKeepsTagsReplay(start: RawTags, log: Log, photo: int, current: Row, delta: Delta)
    requires ReplayTags(start, log, photo) == Raw(current.tags)
    ensures ReplayTags(start, log + Difference(photo, current, delta), photo) == Raw(Filled(delta).tags) <==>
      delta.tags.Some? || current.tags == map[]
  {
    ReplayTagsOfUpdate(start, log, photo, current, delta, photo);
    if delta.tags.Some? {
      ReplayTagsDifference(current.tags, delta.tags.value, photo);
    } else {
      assert Raw(current.tags).Keys == current.tags.Keys;
    }
  }

  /** Likewise for the group of the photo. */
  lemma {:induction false} UpdateKeepsGroupReplay(start: GroupInfo, log: Log, photo: int, current: Row, delta: Delta)
    requires ReplayGroup(start, log, photo) == current.group
    requires WellFormedGroup(current.group) && WellFormedGroup(Filled(delta).group)
    ensures ReplayGroup(start, log + Difference(photo, current, delta), photo) == Filled(delta).group <==>
      delta.group.Some? || current.group == NO_GROUP
  {
    ReplayGroupOfUpdate(start, log, photo, current, delta, photo);
    if delta.group.Some? {
      ReplayGroupDifference(current.group, delta.group.value, photo);
    }
  }
}
