/** Sorting of photos by a tree of actions: a chain of in-place sorts, applied from the last key
    to the first, against one stable sort by the lexicographic order of all the keys. */
module SortActions {
  import opened PhotoData
  import opened Strings

  datatype Photo = Photo(id: int, row: Row)

  datatype SortOrder = Ascending | Descending

  datatype SortBy = PHash | Timestamp | ID

  datatype Action =
    | SortByTag(tag: TagType, tagOrder: SortOrder)
    | Sort(what: SortBy, order: SortOrder)
    | GroupAction(actions: seq<Action>)

  // ----- the order an action stands for -----

  /** One comparison; an action tree is a list of these, most significant first. */
  datatype Key = TagKey(tag: TagType, order: SortOrder) | HashKey(order: SortOrder) | IdKey(order: SortOrder)

  function Keys(action: Action): seq<Key>
    decreases action
  {
    match action
    case SortByTag(tag, order) => [TagKey(tag, order)]
    case Sort(PHash, order) => [HashKey(order)]
    case Sort(Timestamp, order) => [TagKey(DATE, order), TagKey(TIME, order)]
    case Sort(ID, order) => [IdKey(order)]
    case GroupAction(actions) => AllKeys(actions)
  }

  function AllKeys(actions: seq<Action>): seq<Key>
    decreases actions
  {
    if actions == [] then [] else Keys(actions[0]) + AllKeys(actions[1..])
  }

  predicate AscendingLess(key: Key, a: Photo, b: Photo) {
    match key
    case TagKey(tag, _) => StringLess(TagOf(a.row.tags, tag).raw, TagOf(b.row.tags, tag).raw)
    case HashKey(_) => IdLess(a.row.phash, b.row.phash)
    case IdKey(_) => a.id < b.id
  }

  predicate KeyLess(key: Key, a: Photo, b: Photo) {
    if key.order == Ascending then AscendingLess(key, a, b) else AscendingLess(key, b, a)
  }

  /** Lexicographic order: the first key that tells two photos apart decides. */
  predicate Less(keys: seq<Key>, a: Photo, b: Photo) {
    keys != [] && (KeyLess(keys[0], a, b) || (!KeyLess(keys[0], b, a) && Less(keys[1..], a, b)))
  }

  // ----- what an action says of two photos -----

  /** The action does not want `b` in front of `a`. */
  predicate MayPrecede(action: Action, a: Photo, b: Photo)
    decreases action
  {
    match action
    case SortByTag(tag, order) => TextsInOrder(order, a.row.tags, b.row.tags, tag)
    case Sort(PHash, Ascending) => !IdLess(b.row.phash, a.row.phash)
    case Sort(PHash, Descending) => !IdLess(a.row.phash, b.row.phash)
    case Sort(Timestamp, order) =>
      TextsInOrder(order, a.row.tags, b.row.tags, DATE) &&
      (TextsInOrder(order, b.row.tags, a.row.tags, DATE) ==> TextsInOrder(order, a.row.tags, b.row.tags, TIME))
    case Sort(ID, Ascending) => a.id <= b.id
    case Sort(ID, Descending) => a.id >= b.id
    case GroupAction(actions) => AllMayPrecede(actions, a, b)
  }

  /** The first action counts, and among its ties the others. */
  predicate AllMayPrecede(actions: seq<Action>, a: Photo, b: Photo)
    decreases actions
  {
    actions != [] ==>
      MayPrecede(actions[0], a, b) && (MayPrecede(actions[0], b, a) ==> AllMayPrecede(actions[1..], a, b))
  }

  /** A tag that is missing counts as one with an empty text. */
  predicate TextsInOrder(order: SortOrder, a: Tags, b: Tags, tag: TagType) {
    var x, y := if tag in a then a[tag].raw else "", if tag in b then b[tag].raw else "";
    if order == Ascending then !StringLess(y, x) else !StringLess(x, y)
  }

  /** The keys of an action order photos as the action says. */
  lemma {:induction false} KeysMean(action: Action, a: Photo, b: Photo)
    ensures Less(Keys(action), b, a) <==> !MayPrecede(action, a, b)
    decreases action
  {
    match action
    case SortByTag(tag, order) =>
      OneKey(TagKey(tag, order), a, b);
    case Sort(PHash, order) =>
      OneKey(HashKey(order), a, b);
    case Sort(Timestamp, order) =>
      OneKey(TagKey(TIME, order), a, b);
      assert [TagKey(DATE, order), TagKey(TIME, order)][1..] == [TagKey(TIME, order)];
    case Sort(ID, order) =>
      OneKey(IdKey(order), a, b);
    case GroupAction(actions) =>
      AllKeysMean(actions, a, b);
  }

  lemma {:induction false} OneKey(key: Key, a: Photo, b: Photo)
    ensures Less([key], b, a) <==> KeyLess(key, b, a)
  {
  }

  lemma {:induction false} AllKeysMean(actions: seq<Action>, a: Photo, b: Photo)
    ensures Less(AllKeys(actions), b, a) <==> !AllMayPrecede(actions, a, b)
    decreases actions
  {
    if actions != [] {
      KeysMean(actions[0], a, b);
      KeysMean(actions[0], b, a);
      AllKeysMean(actions[1..], a, b);
      LessOfConcatenation(Keys(actions[0]), AllKeys(actions[1..]), b, a);
    }
  }

  /** The first action of a group that tells two photos apart decides. */
  lemma {:induction false} FirstToTellDecides(actions: seq<Action>, a: Photo, b: Photo)
    ensures MayPrecede(GroupAction(actions), a, b) <==>
      forall k | 0 <= k < |actions| && AllTie(actions[..k], a, b) :: MayPrecede(actions[k], a, b)
  {
    AllMayPrecedeFrom(actions, 0, a, b);
    assert actions[0..] == actions;
  }

  /** None of the actions tells the two apart. */
  ghost predicate AllTie(actions: seq<Action>, a: Photo, b: Photo) {
    forall m | 0 <= m < |actions| :: MayPrecede(actions[m], a, b) && MayPrecede(actions[m], b, a)
  }

  lemma {:induction false} AllMayPrecedeFrom(actions: seq<Action>, n: nat, a: Photo, b: Photo)
    requires n <= |actions| && AllTie(actions[..n], a, b)
    ensures AllMayPrecede(actions[n..], a, b) <==>
      forall k | n <= k < |actions| && AllTie(actions[..k], a, b) :: MayPrecede(actions[k], a, b)
    decreases |actions| - n
  {
    if n < |actions| {
      assert actions[n..][1..] == actions[n + 1..];
      assert actions[..n + 1] == actions[..n] + [actions[n]];
      if MayPrecede(actions[n], a, b) && MayPrecede(actions[n], b, a) {
        AllMayPrecedeFrom(actions, n + 1, a, b);
      } else {
        forall k | n < k < |actions|
          ensures !AllTie(actions[..k], a, b)
        {
          assert actions[..k][n] == actions[n];
        }
      }
    }
  }

  // ----- it is a strict weak order -----

  lemma {:induction false} KeyOrder(key: Key, a: Photo, b: Photo, c: Photo)
    ensures KeyLess(key, a, b) ==> !KeyLess(key, b, a)
    ensures KeyLess(key, a, c) ==> KeyLess(key, a, b) || KeyLess(key, b, c)
  {
    if key.TagKey? {
      var x, y, z := TagOf(a.row.tags, key.tag).raw, TagOf(b.row.tags, key.tag).raw, TagOf(c.row.tags, key.tag).raw;
      StringOrder(x, y, z);
      StringOrder(z, y, x);
      StringOrder(y, x, z);
    }
  }

  lemma {:induction false} LessOrder(keys: seq<Key>, a: Photo, b: Photo, c: Photo)
    ensures Less(keys, a, b) ==> !Less(keys, b, a)
    ensures Less(keys, a, c) ==> Less(keys, a, b) || Less(keys, b, c)
  {
    if keys != [] {
      KeyOrder(keys[0], a, b, c);
      KeyOrder(keys[0], b, a, c);
      KeyOrder(keys[0], a, c, b);
      KeyOrder(keys[0], c, b, a);
      KeyOrder(keys[0], c, a, b);
      KeyOrder(keys[0], b, c, a);
      LessOrder(keys[1..], a, b, c);
    }
  }

  /** Sorting by keys followed by other keys: the latter decide only among ties. */
  lemma {:induction false} LessOfConcatenation(first: seq<Key>, rest: seq<Key>, a: Photo, b: Photo)
    ensures Less(first + rest, a, b) <==> Less(first, a, b) || (!Less(first, b, a) && Less(rest, a, b))
  {
    if first == [] {
      assert first + rest == rest;
    } else {
      assert (first + rest)[1..] == first[1..] + rest;
      LessOfConcatenation(first[1..], rest, a, b);
      KeyOrder(first[0], a, b, b);
      KeyOrder(first[0], b, a, a);
    }
  }

  // ----- what a stable sort is -----

  ghost predicate Distinct(s: seq<Photo>) {
    forall i, j | 0 <= i < j < |s| :: s[i].id != s[j].id
  }

  ghost predicate Before(s: seq<Photo>, a: Photo, b: Photo) {
    exists i, j :: 0 <= i < j < |s| && s[i] == a && s[j] == b
  }

  /** `a` belongs before `b`: it is less, or they tie on every key and it came first in `s`. */
  ghost predicate Precedes(keys: seq<Key>, s: seq<Photo>, a: Photo, b: Photo) {
    Less(keys, a, b) || (!Less(keys, b, a) && Before(s, a, b))
  }

  ghost predicate Ordered(keys: seq<Key>, s: seq<Photo>, t: seq<Photo>) {
    forall i, j | 0 <= i < j < |t| :: Precedes(keys, s, t[i], t[j])
  }

  /** `t` holds the photos of `s`, sorted by `keys`, ties in the order of `s`. */
  ghost predicate StablySorted(keys: seq<Key>, s: seq<Photo>, t: seq<Photo>) {
    multiset(t) == multiset(s) && Ordered(keys, s, t)
  }

  // ----- permutations of photos with distinct ids -----

  lemma {:induction false} CountedOnce(s: seq<Photo>, x: Photo)
    requires Distinct(s)
    ensures multiset(s)[x] <= 1
  {
    if x in s {
      var i :| 0 <= i < |s| && s[i] == x;
      assert s == s[..i] + [x] + s[i + 1..];
      assert x !in s[..i] && x !in s[i + 1..];
    }
  }

  lemma {:induction false} CountedTwice(s: seq<Photo>, i: int, j: int)
    requires 0 <= i < j < |s| && s[i] == s[j]
    ensures multiset(s)[s[i]] >= 2
  {
    assert s == s[..j] + [s[j]] + s[j + 1..];
    assert s[i] in s[..j];
  }

  lemma {:induction false} SameMembers(s: seq<Photo>, t: seq<Photo>)
    requires multiset(s) == multiset(t)
    ensures |s| == |t| && forall x :: x in s <==> x in t
  {
    assert |multiset(s)| == |s| && |multiset(t)| == |t|;
    forall x
      ensures x in s <==> x in t
    {
      assert x in s <==> x in multiset(s);
      assert x in t <==> x in multiset(t);
    }
  }

  lemma {:induction false} DistinctPermutation(s: seq<Photo>, t: seq<Photo>)
    requires Distinct(s) && multiset(s) == multiset(t)
    ensures Distinct(t)
  {
    SameMembers(s, t);
    forall i, j | 0 <= i < j < |t|
      ensures t[i].id != t[j].id
    {
      if t[i].id == t[j].id {
        assert t[i] in s && t[j] in s;
        var p :| 0 <= p < |s| && s[p] == t[i];
        var q :| 0 <= q < |s| && s[q] == t[j];
        assert p == q;
        CountedOnce(s, t[i]);
        CountedTwice(t, i, j);
      }
    }
  }

  lemma {:induction false} PrecedesIsAsymmetric(keys: seq<Key>, s: seq<Photo>, a: Photo, b: Photo)
    requires Distinct(s) && Precedes(keys, s, a, b)
    ensures !Precedes(keys, s, b, a)
  {
    LessOrder(keys, a, b, b);
  }

  /** There is only one stable sort of photos with distinct ids. */
  lemma {:induction false} StableSortIsUnique(keys: seq<Key>, s: seq<Photo>, t: seq<Photo>, u: seq<Photo>)
    requires Distinct(s) && multiset(t) == multiset(u) && Ordered(keys, s, t) && Ordered(keys, s, u)
    ensures t == u
    decreases |t|
  {
    SameMembers(t, u);
    if t != [] {
      SameHead(keys, s, t, u);
      WithoutHead(t, u);
      OrderedTail(keys, s, t);
      OrderedTail(keys, s, u);
      StableSortIsUnique(keys, s, t[1..], u[1..]);
      assert t == [t[0]] + t[1..] && u == [u[0]] + u[1..];
    }
  }

  lemma {:induction false} WithoutHead(t: seq<Photo>, u: seq<Photo>)
    requires t != [] && u != [] && t[0] == u[0] && multiset(t) == multiset(u)
    ensures multiset(t[1..]) == multiset(u[1..])
  {
    assert t == [t[0]] + t[1..] && u == [u[0]] + u[1..];
    assert multiset(t[1..]) == multiset(t) - multiset{t[0]};
    assert multiset(u[1..]) == multiset(u) - multiset{u[0]};
  }

  lemma {:induction false} OrderedTail(keys: seq<Key>, s: seq<Photo>, t: seq<Photo>)
    requires t != [] && Ordered(keys, s, t)
    ensures Ordered(keys, s, t[1..])
  {
    forall i, j | 0 <= i < j < |t[1..]|
      ensures Precedes(keys, s, t[1..][i], t[1..][j])
    {
      assert Precedes(keys, s, t[i + 1], t[j + 1]);
    }
  }

  lemma {:induction false} SameHead(keys: seq<Key>, s: seq<Photo>, t: seq<Photo>, u: seq<Photo>)
    requires Distinct(s) && multiset(t) == multiset(u) && Ordered(keys, s, t) && Ordered(keys, s, u)
    requires t != [] && u != []
    ensures t[0] == u[0]
  {
    SameMembers(t, u);
    assert t[0] in u && u[0] in t;
    var m :| 0 <= m < |u| && u[m] == t[0];
    var n :| 0 <= n < |t| && t[n] == u[0];
    if m > 0 && n > 0 {
      assert Precedes(keys, s, u[0], u[m]) && Precedes(keys, s, t[0], t[n]);
      PrecedesIsAsymmetric(keys, s, t[0], u[0]);
    }
  }

  /** Sorting by less significant keys first and by more significant ones afterwards. */
  lemma {:induction false} SortThenSort(first: seq<Key>, rest: seq<Key>, s: seq<Photo>, t: seq<Photo>, u: seq<Photo>)
    requires Distinct(s) && StablySorted(rest, s, t) && StablySorted(first, t, u)
    ensures StablySorted(first + rest, s, u)
  {
    DistinctPermutation(s, t);
    forall i, j | 0 <= i < j < |u|
      ensures Precedes(first + rest, s, u[i], u[j])
    {
      var a, b := u[i], u[j];
      assert Precedes(first, t, a, b);
      LessOrder(first, a, b, b);
      LessOfConcatenation(first, rest, a, b);
      LessOfConcatenation(first, rest, b, a);
      if Before(t, a, b) {
        var k, l :| 0 <= k < l < |t| && t[k] == a && t[l] == b;
        assert Precedes(rest, s, t[k], t[l]);
        LessOrder(rest, a, b, b);
      }
    }
  }

  // ----- the library's stable sort -----

  function Insert(keys: seq<Key>, x: Photo, t: seq<Photo>): (r: seq<Photo>)
    ensures multiset(r) == multiset(t) + multiset{x}
  {
    if t == [] || !Less(keys, t[0], x) then [x] + t
    else
      assert t == [t[0]] + t[1..];
      [t[0]] + Insert(keys, x, t[1..])
  }

  function Sorted(keys: seq<Key>, s: seq<Photo>): (t: seq<Photo>)
    ensures multiset(t) == multiset(s)
  {
    if s == [] then []
    else
      assert s == [s[0]] + s[1..];
      Insert(keys, s[0], Sorted(keys, s[1..]))
  }

  lemma {:induction false} InsertKeepsOrder(keys: seq<Key>, x: Photo, s: seq<Photo>, t: seq<Photo>)
    requires Ordered(keys, s, t) && forall y | y in t :: y in s
    ensures Ordered(keys, [x] + s, Insert(keys, x, t))
  {
    var r := Insert(keys, x, t);
    var s' := [x] + s;
    forall a, b | Precedes(keys, s, a, b)
      ensures Precedes(keys, s', a, b)
    {
      BeforeInLonger(s, x, a, b);
    }
    if t == [] {
    } else if !Less(keys, t[0], x) {
      forall j | 0 <= j < |t|
        ensures Precedes(keys, s', x, t[j])
      {
        if j > 0 {
          assert Precedes(keys, s, t[0], t[j]);
        }
        LessOrder(keys, t[j], t[0], x);
        LessOrder(keys, t[0], t[j], x);
        FirstIsBefore(s, x, t[j]);
      }
    } else {
      InsertKeepsOrder(keys, x, s, t[1..]);
      var rest := Insert(keys, x, t[1..]);
      forall j | 0 <= j < |rest|
        ensures Precedes(keys, s', t[0], rest[j])
      {
        assert rest[j] in multiset(rest);
        if rest[j] != x {
          assert rest[j] in t[1..];
          var k :| 1 <= k < |t| && t[k] == rest[j];
          assert Precedes(keys, s, t[0], t[k]);
        }
      }
    }
  }

  lemma {:induction false} BeforeInLonger(s: seq<Photo>, x: Photo, a: Photo, b: Photo)
    ensures Before(s, a, b) ==> Before([x] + s, a, b)
  {
    if Before(s, a, b) {
      var i, j :| 0 <= i < j < |s| && s[i] == a && s[j] == b;
      assert ([x] + s)[i + 1] == a && ([x] + s)[j + 1] == b;
    }
  }

  lemma {:induction false} FirstIsBefore(s: seq<Photo>, x: Photo, y: Photo)
    requires y in s
    ensures Before([x] + s, x, y)
  {
    var i :| 0 <= i < |s| && s[i] == y;
    assert ([x] + s)[0] == x && ([x] + s)[i + 1] == y;
  }

  lemma {:induction false} SortedIsStable(keys: seq<Key>, s: seq<Photo>)
    ensures StablySorted(keys, s, Sorted(keys, s))
  {
    if s != [] {
      SortedIsStable(keys, s[1..]);
      SameMembers(s[1..], Sorted(keys, s[1..]));
      InsertKeepsOrder(keys, s[0], s[1..], Sorted(keys, s[1..]));
      assert s == [s[0]] + s[1..];
    }
  }

  function Reversed(s: seq<Photo>): (r: seq<Photo>)
    ensures |r| == |s| && forall i | 0 <= i < |s| :: r[i] == s[|s| - 1 - i]
    ensures multiset(r) == multiset(s)
  {
    if s == [] then []
    else
      assert s == [s[0]] + s[1..];
      Reversed(s[1..]) + [s[0]]
  }

  /** Sorting the reversed range in ascending order is a stable descending sort of the range. */
  lemma {:induction false} ReversedSortIsDescending(s: seq<Photo>, t: seq<Photo>)
    requires StablySorted([HashKey(Ascending)], Reversed(s), Reversed(t))
    ensures StablySorted([HashKey(Descending)], s, t)
  {
    forall i, j | 0 <= i < j < |t|
      ensures Precedes([HashKey(Descending)], s, t[i], t[j])
    {
      ReversedPair(Reversed(s), t, Reversed(t), i, j);
      PrecedesReversed(s, t[i], t[j]);
    }
  }

  lemma {:induction false} ReversedPair(was: seq<Photo>, t: seq<Photo>, r: seq<Photo>, i: nat, j: nat)
    requires i < j < |t| && |r| == |t| && forall k | 0 <= k < |t| :: r[k] == t[|t| - 1 - k]
    requires forall k, l | 0 <= k < l < |r| :: Precedes([HashKey(Ascending)], was, r[k], r[l])
    ensures Precedes([HashKey(Ascending)], was, t[j], t[i])
  {
    var n := |t| - 1;
    assert r[n - j] == t[j] && r[n - i] == t[i];
  }

  lemma {:induction false} PrecedesReversed(s: seq<Photo>, a: Photo, b: Photo)
    requires Precedes([HashKey(Ascending)], Reversed(s), b, a)
    ensures Precedes([HashKey(Descending)], s, a, b)
  {
    HashLess(a, b);
    HashLess(b, a);
  }

  lemma {:induction false} HashLess(a: Photo, b: Photo)
    ensures Less([HashKey(Descending)], a, b) <==> Less([HashKey(Ascending)], b, a)
  {
  }

  // ----- the in-place sorts -----

  method Assign(a: array<Photo>, t: seq<Photo>)
    requires |t| == a.Length
    modifies a
    ensures a[..] == t
  {
    forall i | 0 <= i < a.Length {
      a[i] := t[i];
    }
  }

  /** std::stable_sort over the whole range. */
  method StableSort(a: array<Photo>, key: Key)
    modifies a
    ensures StablySorted([key], old(a[..]), a[..])
  {
    var t := Sorted([key], a[..]);
    SortedIsStable([key], a[..]);
    SameMembers(t, a[..]);
    Assign(a, t);
  }

  /** std::stable_sort over the reversed range, with the ascending comparison. */
  method StableSortFromTheBack(a: array<Photo>)
    modifies a
    ensures StablySorted([HashKey(Descending)], old(a[..]), a[..])
  {
    ghost var s := a[..];
    var t := Reversed(Sorted([HashKey(Ascending)], Reversed(a[..])));
    SortedFromTheBack(s);
    SameMembers(t, s);
    Assign(a, t);
  }

  lemma {:induction false} SortedFromTheBack(s: seq<Photo>)
    ensures StablySorted([HashKey(Descending)], s, Reversed(Sorted([HashKey(Ascending)], Reversed(s))))
  {
    var t := Sorted([HashKey(Ascending)], Reversed(s));
    SortedIsStable([HashKey(Ascending)], Reversed(s));
    ReversedSortIsDescending(s, Reversed(t));
  }

  /** std::sort promises a sorted permutation and nothing about ties. */
  method UnstableSort(a: array<Photo>, key: Key)
    modifies a
    ensures multiset(a[..]) == multiset(old(a[..]))
    ensures forall i, j | 0 <= i < j < a.Length :: !KeyLess(key, a[j], a[i])
  {
    var t := Sorted([key], a[..]);
    SortedIsStable([key], a[..]);
    SameMembers(t, a[..]);
    forall i, j | 0 <= i < j < |t|
      ensures !KeyLess(key, t[j], t[i])
    {
      assert Precedes([key], a[..], t[i], t[j]);
      KeyOrder(key, t[i], t[j], t[j]);
    }
    Assign(a, t);
  }

  // ----- the chain -----

  function Weight(action: Action): nat
    decreases action
  {
    match action
    case SortByTag(_, _) => 0
    case Sort(_, _) => 1
    case GroupAction(actions) => 2 + TotalWeight(actions)
  }

  function TotalWeight(actions: seq<Action>): nat
    decreases actions
  {
    if actions == [] then 0 else Weight(actions[0]) + TotalWeight(actions[1..])
  }

  lemma {:induction false} WeightInGroup(actions: seq<Action>, i: nat)
    requires i < |actions|
    ensures Weight(actions[i]) <= TotalWeight(actions)
  {
    if i > 0 {
      WeightInGroup(actions[1..], i - 1);
    }
  }

  /** Sorting the photos in place by an action tree leaves them stably sorted by its keys. */
  method OnPhotos(photos: array<Photo>, action: Action)
    requires Distinct(photos[..])
    modifies photos
    ensures StablySorted(Keys(action), old(photos[..]), photos[..])
    ensures forall i, j | 0 <= i < j < photos.Length :: MayPrecede(action, photos[..][i], photos[..][j])
    decreases Weight(action), 1
  {
    ghost var s := photos[..];
    match action {
      case SortByTag(tag, order) => StableSort(photos, TagKey(tag, order));
      case GroupAction(actions) => InReverse(photos, actions);
      case Sort(what, order) => SortOnce(photos, what, order);
    }
    SortedMeans(action, s, photos[..]);
  }

  /** The actions of a group, the last one first. */
  method InReverse(photos: array<Photo>, actions: seq<Action>)
    requires Distinct(photos[..])
    modifies photos
    ensures StablySorted(AllKeys(actions), old(photos[..]), photos[..])
    decreases Weight(GroupAction(actions)), 0
  {
    ghost var s := photos[..];
    var i := |actions|;
    while i > 0
      invariant 0 <= i <= |actions|
      invariant StablySorted(AllKeys(actions[i..]), s, photos[..])
    {
      ghost var t := photos[..];
      DistinctPermutation(s, t);
      i := i - 1;
      WeightInGroup(actions, i);
      OnPhotos(photos, actions[i]);
      assert actions[i..][1..] == actions[i + 1..];
      SortThenSort(Keys(actions[i]), AllKeys(actions[i + 1..]), s, t, photos[..]);
    }
    assert actions[0..] == actions;
  }

  method SortOnce(photos: array<Photo>, what: SortBy, order: SortOrder)
    requires Distinct(photos[..])
    modifies photos
    ensures StablySorted(Keys(Sort(what, order)), old(photos[..]), photos[..])
    decreases Weight(Sort(what, order)), 0
  {
    ghost var s := photos[..];
    match what {
      case PHash =>
        if order == Ascending {
          StableSort(photos, HashKey(Ascending));
        } else {
          StableSortFromTheBack(photos);
        }
      case Timestamp =>
        OnPhotos(photos, SortByTag(TIME, order));
        ghost var t := photos[..];
        DistinctPermutation(s, t);
        OnPhotos(photos, SortByTag(DATE, order));
        SortThenSort([TagKey(DATE, order)], [TagKey(TIME, order)], s, t, photos[..]);
      case ID =>
        UnstableSort(photos, IdKey(order));
        DistinctPermutation(s, photos[..]);
    }
  }

  /** What a stable sort by the keys of an action leaves, said without keys: no photo comes before one that the action
      wants in front of it, and those it does not tell apart stay as they were. */
  lemma {:induction false} SortedMeans(action: Action, s: seq<Photo>, t: seq<Photo>)
    requires StablySorted(Keys(action), s, t)
    ensures forall i, j | 0 <= i < j < |t| ::
      MayPrecede(action, t[i], t[j]) && (MayPrecede(action, t[j], t[i]) ==> Before(s, t[i], t[j]))
  {
    forall i, j | 0 <= i < j < |t|
      ensures MayPrecede(action, t[i], t[j]) && (MayPrecede(action, t[j], t[i]) ==> Before(s, t[i], t[j]))
    {
      assert Precedes(Keys(action), s, t[i], t[j]);
      KeysMean(action, t[i], t[j]);
      KeysMean(action, t[j], t[i]);
      LessOrder(Keys(action), t[i], t[j], t[j]);
    }
  }

  /** A timestamp is the text of the date (tag 3) and, where the dates are the same, that of the time (tag 4). */
  lemma {:induction false} TimestampMeans(order: SortOrder, s: seq<Photo>, t: seq<Photo>, i: nat, j: nat)
    requires StablySorted(Keys(Sort(Timestamp, order)), s, t) && i < j < |t|
    ensures
      var date := if 3 in t[i].row.tags then t[i].row.tags[3].raw else "";
      var laterDate := if 3 in t[j].row.tags then t[j].row.tags[3].raw else "";
      var time := if 4 in t[i].row.tags then t[i].row.tags[4].raw else "";
      var laterTime := if 4 in t[j].row.tags then t[j].row.tags[4].raw else "";
      if order == Ascending then
        !StringLess(laterDate, date) && (date == laterDate ==> !StringLess(laterTime, time))
      else
        !StringLess(date, laterDate) && (date == laterDate ==> !StringLess(time, laterTime))
  {
    SortedMeans(Sort(Timestamp, order), s, t);
    assert MayPrecede(Sort(Timestamp, order), t[i], t[j]);
    var date := if 3 in t[i].row.tags then t[i].row.tags[3].raw else "";
    StringOrder(date, date, date);
  }

  lemma {:induction false} TagSortMeans(tag: TagType, order: SortOrder, s: seq<Photo>, t: seq<Photo>, i: nat, j: nat)
    requires StablySorted(Keys(SortByTag(tag, order)), s, t) && i < j < |t|
    ensures
      var text := if tag in t[i].row.tags then t[i].row.tags[tag].raw else "";
      var later := if tag in t[j].row.tags then t[j].row.tags[tag].raw else "";
      if order == Ascending then !StringLess(later, text) else !StringLess(text, later)
  {
    SortedMeans(SortByTag(tag, order), s, t);
    assert MayPrecede(SortByTag(tag, order), t[i], t[j]);
  }

  /** Photos without a hash count as ones with the hash 0 that come before those that have it. */
  lemma {:induction false} HashSortMeans(order: SortOrder, s: seq<Photo>, t: seq<Photo>, i: nat, j: nat)
    requires StablySorted(Keys(Sort(PHash, order)), s, t) && i < j < |t|
    ensures
      var first, second := if order == Ascending then t[i].row.phash else t[j].row.phash,
        if order == Ascending then t[j].row.phash else t[i].row.phash;
      && (first.Valid? && second.Valid? ==> first.value <= second.value)
      && (first.Valid? && second.Invalid? ==> first.value < 0)
      && (first.Invalid? && second.Valid? ==> second.value >= 0)
  {
    SortedMeans(Sort(PHash, order), s, t);
    assert MayPrecede(Sort(PHash, order), t[i], t[j]);
  }

  lemma {:induction false} IdSortMeans(order: SortOrder, s: seq<Photo>, t: seq<Photo>, i: nat, j: nat)
    requires StablySorted(Keys(Sort(ID, order)), s, t) && i < j < |t|
    ensures if order == Ascending then t[i].id <= t[j].id else t[i].id >= t[j].id
  {
    SortedMeans(Sort(ID, order), s, t);
    assert MayPrecede(Sort(ID, order), t[i], t[j]);
  }

  /** The chain of sorts is the one stable sort by the lexicographic order: whatever it leaves in
      the range is what a single stable sort by all the keys would have left. */
  lemma {:induction false} ChainIsLexicographicSort(action: Action, s: seq<Photo>, t: seq<Photo>)
    requires Distinct(s)
    ensures StablySorted(Keys(action), s, t) <==> t == Sorted(Keys(action), s)
  {
    SortedIsStable(Keys(action), s);
    if StablySorted(Keys(action), s, t) {
      StableSortIsUnique(Keys(action), s, t, Sorted(Keys(action), s));
    }
  }
}
