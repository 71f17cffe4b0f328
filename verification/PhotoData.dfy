/** The values the photo database is made of. */
module PhotoData {
  import opened Wrappers

  /** A typed id. The source keeps a value and a validity flag; an invalid id always holds value 0. */
  datatype Id = Invalid | Valid(value: int)

  function RawValue(id: Id): int {
    if id.Valid? then id.value else 0
  }

  /** The defaulted comparison of ids: the value first, the validity flag second. */
  predicate IdLess(a: Id, b: Id) {
    RawValue(a) < RawValue(b) || (RawValue(a) == RawValue(b) && a.Invalid? && b.Valid?)
  }

  // ----- tags -----

  datatype ValueType = Empty | String | Date | Time | Int | Color

  /** A tag's value with its raw text form; all comparisons in the source use the raw form. */
  datatype TagValue = TagValue(kind: ValueType, raw: string)

  const NO_TAG_VALUE := TagValue(Empty, "")

  /** The numbers of Tag::Types, by which std::map orders the tags of a photo. */
  type TagType = int

  const DATE: TagType := 3
  const TIME: TagType := 4

  type Tags = map<TagType, TagValue>

  function TagOf(tags: Tags, tag: TagType): TagValue {
    if tag in tags then tags[tag] else NO_TAG_VALUE
  }

  // ----- groups -----

  datatype Role = Alone | Representative | Member

  datatype GroupInfo = GroupInfo(groupId: Id, role: Role)

  const NO_GROUP := GroupInfo(Invalid, Alone)

  /** What the constructor of GroupInfo asserts. */
  predicate WellFormedGroup(g: GroupInfo) {
    g.role.Alone? <==> g.groupId.Invalid?
  }

  datatype GroupType = InvalidGroup | Animation | HDR | Generic | Collage

  // ----- people -----

  datatype Rect = Rect(x: int, y: int, width: int, height: int)

  predicate ValidRect(r: Rect) {
    r.width > 0 && r.height > 0
  }

  datatype PersonInfo = PersonInfo(id: Id, personId: Id, photoId: Id, fingerprintId: Id, rect: Rect)

  /** A person on a photo before its names are resolved to ids. */
  datatype PersonFullInfo = PersonFullInfo(position: Rect, nameId: Id, name: string)

  // ----- photos -----

  type Flags = map<int, int>

  /** Every field stored for a photo (all the fields of a delta but the people). */
  datatype Row = Row(
    tags: Tags, flags: Flags, path: string, geometry: (int, int), group: GroupInfo, phash: Id)

  const DEFAULT_ROW := Row(map[], map[], "", (-1, -1), NO_GROUP, Invalid)

  /** A set of photo details; absent fields are None. */
  datatype Delta = Delta(
    id: Id, tags: Option<Tags>, flags: Option<Flags>, path: Option<string>, geometry: Option<(int, int)>,
    group: Option<GroupInfo>, phash: Option<Id>, people: Option<seq<PersonFullInfo>>)

  function EmptyDelta(id: Id): Delta {
    Delta(id, None, None, None, None, None, None, None)
  }

  function Get<T>(field: Option<T>, default: T): T {
    match field
    case Some(v) => v
    case None => default
  }

  /** The explicit delta built from a delta: fields are filled with defaults, then overwritten by
      those present. This is also what merging a delta into a stored photo leaves. */
  function Filled(delta: Delta): Row {
    Row(Get(delta.tags, DEFAULT_ROW.tags), Get(delta.flags, DEFAULT_ROW.flags), Get(delta.path, DEFAULT_ROW.path),
        Get(delta.geometry, DEFAULT_ROW.geometry), Get(delta.group, DEFAULT_ROW.group),
        Get(delta.phash, DEFAULT_ROW.phash))
  }
}
