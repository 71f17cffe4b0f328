/** The configuration file: a flat map keyed by `a::b::c`, kept on disk as a tree of JSON objects.
    The file is a field of the storage object. */
module ConfigStorage {
  import opened ConfigTree
  import opened Strings
  import opened Wrappers

  // ----- writing -----

  /** What is found at `q` once `value` has been written at `path`: the leaves of the value below the path,
      nothing above it, and what was there before elsewhere. */
  function Overwritten(obj: Members, path: Path, value: Json, q: Path): Option<Json>
    requires |path| >= 1 && |q| >= 1
  {
    if IsPrefix(path, q) then At(value, q[|path|..])
    else if IsPrefix(q, path) then None
    else Lookup(obj, q)
  }

  ghost predicate Written(obj: Members, obj': Members, path: Path, value: Json)
    requires |path| >= 1
  {
    forall q: Path | |q| >= 1 :: Lookup(obj', q) == Overwritten(obj, path, value, q)
  }

  predicate CanBeEntered(leaf: Option<Json>) {
    leaf.Some? ==> leaf.value.Null? || leaf.value.Object?
  }

  /** No leaf but null and the empty object lies on the way to `path`. */
  ghost predicate PathClear(obj: Members, path: Path) {
    forall n | 1 <= n < |path| :: CanBeEntered(Lookup(obj, path[..n]))
  }

  /** Writes one value. `assertsHold` tells whether the assertion on the object entered
      (null or an object) held at every level of the descent. */
  method WriteTo(obj: Members, configPath: Path, value: Json) returns (obj': Members, assertsHold: bool)
    requires |configPath| >= 1 && !value.Null?
    ensures configPath[0] in obj' && Written(obj, obj', configPath, value)
    ensures assertsHold <==> PathClear(obj, configPath)
    ensures assertsHold <==> forall n | 1 <= n < |configPath| ::
      Lookup(obj, configPath[..n]) in {None, Some(Null), Some(Object(map[]))}
    decreases |configPath|
  {
    var entryName := configPath[0];
    if |configPath| == 1 {
      obj' := obj[entryName := value];
      assertsHold := true;
      assert configPath == [entryName];
      forall q: Path | |q| >= 1
        ensures Lookup(obj', q) == Overwritten(obj, configPath, value, q)
      {
        assert IsPrefix(configPath, q) <==> q[0] == entryName;
      }
    } else {
      var rest := configPath[1..];
      var jsonValue := if entryName in obj then obj[entryName] else Null;
      var subObj := if jsonValue.Object? then jsonValue.members else map[];
      var subObj', below := WriteTo(subObj, rest, value);
      obj' := obj[entryName := Object(subObj')];
      assertsHold := (jsonValue.Null? || jsonValue.Object?) && below;
      WrittenBelow(obj, obj', configPath, value, subObj, subObj');
      AssertStep(obj, configPath, subObj);
    }
    ClearMeans(obj, configPath);
  }

  lemma {:induction false} ClearMeans(obj: Members, path: Path)
    requires |path| >= 1
    ensures PathClear(obj, path) <==> forall n | 1 <= n < |path| ::
      Lookup(obj, path[..n]) in {None, Some(Null), Some(Object(map[]))}
  {
    forall n | 1 <= n < |path|
      ensures CanBeEntered(Lookup(obj, path[..n])) <==>
        Lookup(obj, path[..n]) in {None, Some(Null), Some(Object(map[]))}
    {
      LeafIsFound(obj, path[..n]);
    }
  }

  /** What is found at a path is a leaf. */
  lemma {:induction false} LeafIsFound(obj: Members, path: Path)
    requires |path| >= 1
    ensures Lookup(obj, path).Some? ==> IsLeaf(Lookup(obj, path).value)
    decreases |path|
  {
    if |path| > 1 && path[0] in obj && obj[path[0]].Object? {
      assert Lookup(obj, path) == Lookup(obj[path[0]].members, path[1..]);
      LeafIsFound(obj[path[0]].members, path[1..]);
    }
  }

  /** Writing into a member writes into the object. */
  lemma {:induction false} WrittenBelow(obj: Members, obj': Members, p: Path, value: Json, subObj: Members,
      subObj': Members)
    requires |p| >= 2 && subObj' != map[] && obj' == obj[p[0] := Object(subObj')]
    requires subObj == if p[0] in obj && obj[p[0]].Object? then obj[p[0]].members else map[]
    requires Written(subObj, subObj', p[1..], value)
    ensures Written(obj, obj', p, value)
  {
    forall q: Path | |q| >= 1
      ensures Lookup(obj', q) == Overwritten(obj, p, value, q)
    {
      if q[0] == p[0] && |q| >= 2 {
        BelowMember(obj, p, value, q, subObj, subObj');
      }
    }
  }

  lemma {:induction false} BelowMember(obj: Members, p: Path, value: Json, q: Path, subObj: Members, subObj': Members)
    requires |p| >= 2 && |q| >= 2 && q[0] == p[0]
    requires subObj == if p[0] in obj && obj[p[0]].Object? then obj[p[0]].members else map[]
    requires Lookup(subObj', q[1..]) == Overwritten(subObj, p[1..], value, q[1..])
    ensures Lookup(subObj', q[1..]) == Overwritten(obj, p, value, q)
  {
    assert p == [p[0]] + p[1..] && q == [q[0]] + q[1..];
    assert IsPrefix(p, q) <==> IsPrefix(p[1..], q[1..]);
    assert IsPrefix(q, p) <==> IsPrefix(q[1..], p[1..]);
    assert IsPrefix(p, q) ==> q[1..][|p| - 1..] == q[|p|..];
  }

  lemma {:induction false} AssertStep(obj: Members, p: Path, subObj: Members)
    requires |p| >= 2
    requires subObj == if p[0] in obj && obj[p[0]].Object? then obj[p[0]].members else map[]
    ensures PathClear(obj, p) <==>
      (p[0] in obj ==> obj[p[0]].Null? || obj[p[0]].Object?) && PathClear(subObj, p[1..])
  {
    assert p[..1] == [p[0]];
    assert CanBeEntered(Lookup(obj, p[..1])) <==> (p[0] in obj ==> obj[p[0]].Null? || obj[p[0]].Object?);
    forall n | 2 <= n < |p|
      ensures Lookup(obj, p[..n]) == Lookup(subObj, p[1..][..n - 1])
    {
      assert p[..n][1..] == p[1..][..n - 1];
    }
    if PathClear(obj, p) {
      assert CanBeEntered(Lookup(obj, p[..1]));
      forall n | 1 <= n < |p| - 1
        ensures CanBeEntered(Lookup(subObj, p[1..][..n]))
      {
        assert CanBeEntered(Lookup(obj, p[..n + 1]));
      }
    }
  }

  // ----- the storage -----

  ghost predicate PrefixFree(config: Content) {
    forall k1, k2 | k1 in config && k2 in config && k1 != k2 :: !IsPrefix(Split(k1), Split(k2))
  }

  /** No key of two or more components starts with an empty one. */
  ghost predicate HeadsNonEmpty(config: Content) {
    forall k | k in config :: |Split(k)| == 1 || Split(k)[0] != ""
  }

  /** The leaf comes from the value of `k`. */
  ghost predicate From(config: Content, k: string, q: Path, leaf: Option<Json>) {
    k in config && IsPrefix(Split(k), q) && leaf == At(config[k], q[|Split(k)|..])
  }

  /** Every leaf of the tree is that of some value. */
  ghost predicate Sound(tree: Members, config: Content) {
    forall q: Path | |q| >= 1 && Lookup(tree, q).Some? :: exists k :: From(config, k, q, Lookup(tree, q))
  }

  /** The tree holds, under every key's path, the leaves of its value and nothing else. */
  ghost predicate Complete(tree: Members, config: Content) {
    forall k, q: Path | k in config && IsPrefix(Split(k), q) :: Lookup(tree, q) == At(config[k], q[|Split(k)|..])
  }

  lemma {:induction false} PrefixesNest(p: Path, r: Path, q: Path)
    requires IsPrefix(p, q) && (IsPrefix(r, q) || IsPrefix(q, r))
    ensures IsPrefix(p, r) || IsPrefix(r, p)
  {
    if IsPrefix(r, q) {
      if |p| <= |r| {
        assert r[..|p|] == q[..|p|];
      } else {
        assert p[..|r|] == q[..|r|];
      }
    } else {
      assert r[..|p|] == r[..|q|][..|p|];
    }
  }

  /** In a prefix-free configuration nothing under one key is above or below another. */
  lemma {:induction false} Unrelated(config: Content, k: string, key: string, q: Path)
    requires PrefixFree(config) && k in config && key in config && k != key && IsPrefix(Split(k), q)
    ensures !IsPrefix(Split(key), q) && !IsPrefix(q, Split(key))
  {
    if IsPrefix(Split(key), q) || IsPrefix(q, Split(key)) {
      PrefixesNest(Split(k), Split(key), q);
    }
  }

  // ----- writing all entries -----

  predicate Within(keys: seq<string>, config: Content) {
    forall i | 0 <= i < |keys| :: keys[i] in config
  }

  /** What a run of writes, one for each key, leaves at `q`: the last key whose path is above, at or below `q`
      decides. */
  ghost function Final(config: Content, keys: seq<string>, q: Path): Option<Json>
    requires |q| >= 1 && Within(keys, config)
  {
    if keys == [] then None
    else
      var key := keys[|keys| - 1];
      if IsPrefix(Split(key), q) then At(config[key], q[|Split(key)|..])
      else if IsPrefix(q, Split(key)) then None
      else Final(config, keys[..|keys| - 1], q)
  }

  ghost predicate WrittenOut(config: Content, keys: seq<string>, tree: Members)
    requires Within(keys, config)
  {
    forall q: Path | |q| >= 1 :: Lookup(tree, q) == Final(config, keys, q)
  }

  /** At every write the way to the key's path was clear. */
  ghost predicate AllClear(config: Content, keys: seq<string>)
    requires Within(keys, config)
  {
    forall j | 0 <= j < |keys| :: ClearWay(config, keys[..j], keys[j])
  }

  ghost predicate ClearWay(config: Content, before: seq<string>, key: string)
    requires Within(before, config)
  {
    forall n | 1 <= n < |Split(key)| :: ClearAt(config, before, key, n)
  }

  ghost predicate ClearAt(config: Content, before: seq<string>, key: string, n: nat)
    requires 1 <= n < |Split(key)| && Within(before, config)
  {
    CanBeEntered(Final(config, before, Split(key)[..n]))
  }

  ghost predicate Distinct(keys: seq<string>) {
    forall i, j | 0 <= i < j < |keys| :: keys[i] != keys[j]
  }

  ghost predicate Lists(keys: seq<string>, config: Content) {
    Distinct(keys) && forall k :: k in keys <==> k in config
  }

  lemma {:induction false} FinalOfLast(config: Content, before: seq<string>, key: string, q: Path)
    requires |q| >= 1 && key in config && Within(before, config)
    ensures Final(config, before + [key], q) ==
      if IsPrefix(Split(key), q) then At(config[key], q[|Split(key)|..])
      else if IsPrefix(q, Split(key)) then None
      else Final(config, before, q)
  {
    assert (before + [key])[..|before|] == before;
  }

  lemma {:induction false} WriteOne(config: Content, before: seq<string>, key: string, tree: Members, tree': Members)
    requires key in config && Within(before, config)
    requires WrittenOut(config, before, tree) && Written(tree, tree', Split(key), config[key])
    ensures WrittenOut(config, before + [key], tree')
  {
    forall q: Path | |q| >= 1
      ensures Lookup(tree', q) == Final(config, before + [key], q)
    {
      FinalOfLast(config, before, key, q);
    }
  }

  lemma {:induction false} SameWay(config: Content, before: seq<string>, key: string, tree: Members)
    requires Within(before, config) && WrittenOut(config, before, tree)
    ensures PathClear(tree, Split(key)) <==> ClearWay(config, before, key)
  {
    var path := Split(key);
    forall n | 1 <= n < |path|
      ensures CanBeEntered(Lookup(tree, path[..n])) <==> ClearAt(config, before, key, n)
    {
      assert Lookup(tree, path[..n]) == Final(config, before, path[..n]);
    }
  }

  lemma {:induction false} ClearOne(config: Content, before: seq<string>, key: string)
    requires key in config && Within(before, config)
    ensures AllClear(config, before + [key]) <==> AllClear(config, before) && ClearWay(config, before, key)
  {
    var keys := before + [key];
    assert keys[..|before|] == before && keys[|before|] == key;
    assert forall j | 0 <= j < |before| :: keys[j] == before[j] && keys[..j] == before[..j];
    if AllClear(config, keys) {
      assert ClearWay(config, keys[..|before|], keys[|before|]);
      assert forall j | 0 <= j < |before| :: ClearWay(config, keys[..j], keys[j]);
    }
  }

  /** Where saving stands once the first `n` entries have been written. */
  ghost predicate Stand(config: Content, keys: seq<string>, n: nat, tree: Members, assertsHold: bool)
    requires n <= |keys|
  {
    && Within(keys, config)
    && WrittenOut(config, keys[..n], tree) && (assertsHold <==> AllClear(config, keys[..n]))
  }

  lemma {:induction false} OneWritten(config: Content, done: seq<string>, key: string, tree: Members, tree': Members,
      ok: bool)
    requires Within(done, config) && WrittenOut(config, done, tree) && key in config
    requires Written(tree, tree', Split(key), config[key]) && (ok <==> PathClear(tree, Split(key)))
    ensures Within(done + [key], config) && WrittenOut(config, done + [key], tree')
    ensures AllClear(config, done + [key]) <==> AllClear(config, done) && ok
  {
    SameWay(config, done, key, tree);
    WriteOne(config, done, key, tree, tree');
    ClearOne(config, done, key);
  }

  lemma {:induction false} StandAfterOne(config: Content, keys: seq<string>, n: nat, tree: Members, tree': Members,
      assertsHold: bool, ok: bool)
    requires n < |keys| && Stand(config, keys, n, tree, assertsHold)
    requires Written(tree, tree', Split(keys[n]), config[keys[n]]) && (ok <==> PathClear(tree, Split(keys[n])))
    ensures Stand(config, keys, n + 1, tree', assertsHold && ok)
  {
    OneWritten(config, keys[..n], keys[n], tree, tree', ok);
    assert keys[..n + 1] == keys[..n] + [keys[n]];
  }

  /** Writes the entries in the order of `keys`. */
  method WriteAll(config: Content, keys: seq<string>) returns (tree: Members, assertsHold: bool)
    requires NoNulls(config) && Within(keys, config)
    ensures Stand(config, keys, |keys|, tree, assertsHold)
  {
    tree, assertsHold := map[], true;
    for i := 0 to |keys|
      invariant Stand(config, keys, i, tree, assertsHold)
    {
      var tree', ok := WriteTo(tree, Split(keys[i]), config[keys[i]]);
      StandAfterOne(config, keys, i, tree, tree', assertsHold, ok);
      tree, assertsHold := tree', assertsHold && ok;
    }
  }

  // ----- whatever the order -----

  lemma {:induction false} FinalIsSound(config: Content, keys: seq<string>, q: Path) returns (k: string)
    requires |q| >= 1 && Within(keys, config) && Final(config, keys, q).Some?
    ensures k in keys && From(config, k, q, Final(config, keys, q))
  {
    k := keys[|keys| - 1];
    if !IsPrefix(Split(k), q) {
      k := FinalIsSound(config, keys[..|keys| - 1], q);
    }
  }

  lemma {:induction false} FinalIsComplete(config: Content, keys: seq<string>, k: string, q: Path)
    requires |q| >= 1 && Within(keys, config) && PrefixFree(config)
    requires k in keys && IsPrefix(Split(k), q)
    ensures Final(config, keys, q) == At(config[k], q[|Split(k)|..])
  {
    var key := keys[|keys| - 1];
    if k != key {
      Unrelated(config, k, key, q);
      FinalIsComplete(config, keys[..|keys| - 1], k, q);
    }
  }

  /** In any order the leaves come from the values, and those of a prefix-free configuration are all there. */
  lemma {:induction false} WrittenIsSaved(config: Content, keys: seq<string>, tree: Members, assertsHold: bool)
    requires Lists(keys, config) && Stand(config, keys, |keys|, tree, assertsHold)
    ensures Sound(tree, config) && (PrefixFree(config) ==> Complete(tree, config))
  {
    assert keys[..|keys|] == keys;
    forall q: Path | |q| >= 1 && Lookup(tree, q).Some?
      ensures exists k :: From(config, k, q, Lookup(tree, q))
    {
      var k := FinalIsSound(config, keys, q);
    }
    forall k, q: Path | PrefixFree(config) && k in config && IsPrefix(Split(k), q)
      ensures Lookup(tree, q) == At(config[k], q[|Split(k)|..])
    {
      FinalIsComplete(config, keys, k, q);
    }
  }

  // ----- in the order of the map -----

  lemma {:induction false} JoinOfSum(p: Path, r: Path)
    requires |p| >= 1 && |r| >= 1
    ensures Join(p + r) == Join(p) + "::" + Join(r)
  {
    if |p| == 1 {
      assert (p + r)[1..] == r;
    } else {
      assert (p + r)[1..] == p[1..] + r;
      JoinOfSum(p[1..], r);
      assert p[0] + "::" + (Join(p[1..]) + "::" + Join(r)) == (p[0] + "::" + Join(p[1..])) + "::" + Join(r);
    }
  }

  /** A path that begins with another one belongs to a longer key. */
  lemma {:induction false} DeeperIsLonger(k1: string, k2: string)
    requires k1 != k2 && IsPrefix(Split(k1), Split(k2))
    ensures k1 + "::" <= k2
  {
    var p, q := Split(k1), Split(k2);
    JoinOfSplit(k1);
    JoinOfSplit(k2);
    var r := q[|p|..];
    assert q == p + r;
    assert r == [] ==> q == p;
    JoinOfSum(p, r);
  }

  /** No other key goes on where `key` ends, and it does not go on where another one ends. */
  ghost predicate StandsApart(config: Content, key: string) {
    forall other | other in config && other != key :: !(key + "::" <= other) && !(other + "::" <= key)
  }

  /** A key made of plain components is saved at exactly the path of these components. */
  lemma {:induction false} SavedAtItsPath(config: Content, tree: Members, parts: Path, below: Path)
    requires DeepestDecides(config, tree)
    requires Plain(parts) && Join(parts) in config && StandsApart(config, Join(parts))
    ensures Lookup(tree, parts + below) == At(config[Join(parts)], below)
  {
    var key, q := Join(parts), parts + below;
    SplitOfJoin(parts);
    assert q[..|parts|] == parts && q[|parts|..] == below;
    forall other | other in config && other != key
      ensures !IsPrefix(Split(other), q) && !Extends(other, q)
    {
      if IsPrefix(Split(other), q) || Extends(other, q) {
        PrefixesNest(parts, Split(other), q);
        if IsPrefix(parts, Split(other)) {
          DeeperIsLonger(key, other);
        } else {
          DeeperIsLonger(other, key);
        }
      }
    }
    assert |q| >= |parts| && !Extends(key, q);
    assert IsDeepest(config, key, q);
  }

  /** In a std::map a key comes before the keys that lead further down its path. */
  lemma {:induction false} DeeperIsLater(k1: string, k2: string)
    requires k1 != k2 && IsPrefix(Split(k1), Split(k2))
    ensures StringLess(k1, k2) && !StringLess(k2, k1)
  {
    DeeperIsLonger(k1, k2);
    assert k2 == k1 + k2[|k1|..];
    ExtensionIsGreater(k1, k2[|k1|..]);
    StringOrder(k1, k2, k1);
  }

  /** The key's path leads further down from `q`. */
  ghost predicate Extends(k: string, q: Path) {
    IsPrefix(q, Split(k)) && |q| < |Split(k)|
  }

  ghost predicate Extended(config: Content, q: Path) {
    exists k :: k in config && Extends(k, q)
  }

  /** `k` has the deepest of the keys' paths that lead to `q` or above it. */
  ghost predicate IsDeepest(config: Content, k: string, q: Path) {
    && k in config && IsPrefix(Split(k), q)
    && forall other | other in config && IsPrefix(Split(other), q) :: |Split(other)| <= |Split(k)|
  }

  /** Which leaves survive: nothing where another key leads further down, else what the value of the deepest key
      on the way has there. */
  ghost predicate DeepestDecides(config: Content, tree: Members) {
    && (forall q: Path | |q| >= 1 && Extended(config, q) :: Lookup(tree, q).None?)
    && (forall k, q: Path | |q| >= 1 && !Extended(config, q) && IsDeepest(config, k, q) ::
      Lookup(tree, q) == At(config[k], q[|Split(k)|..]))
  }

  /** On the way to `q` the deepest key has a value that is neither null nor an object. */
  ghost predicate InTheWay(config: Content, k: string, q: Path) {
    IsDeepest(config, k, q) && !CanBeEntered(At(config[k], q[|Split(k)|..]))
  }

  /** No value of one key is in the way of another key. */
  ghost predicate NothingInTheWay(config: Content) {
    forall key, n, k | key in config && 1 <= n < |Split(key)| :: !InTheWay(config, k, Split(key)[..n])
  }

  ghost predicate Ordered(config: Content, keys: seq<string>) {
    StringsAscend(keys) && Within(keys, config)
  }

  lemma {:induction false} LastIsGreatest(keys: seq<string>, k: string)
    requires StringsAscend(keys) && k in keys && k != keys[|keys| - 1]
    ensures k in keys[..|keys| - 1] && StringLess(k, keys[|keys| - 1])
  {
    var i :| 0 <= i < |keys| && keys[i] == k;
    assert keys[..|keys| - 1][i] == k;
  }

  /** The last key is neither above nor at a path that another key extends. */
  lemma {:induction false} LastIsNotAbove(keys: seq<string>, k: string, q: Path)
    requires StringsAscend(keys) && k in keys && k != keys[|keys| - 1] && IsPrefix(q, Split(k))
    ensures !IsPrefix(Split(keys[|keys| - 1]), q)
  {
    var key := keys[|keys| - 1];
    LastIsGreatest(keys, k);
    if IsPrefix(Split(key), q) {
      assert Split(k)[..|Split(key)|] == q[..|Split(key)|];
      DeeperIsLater(key, k);
    }
  }

  lemma {:induction false} NothingWhereExtended(config: Content, keys: seq<string>, k: string, q: Path)
    requires |q| >= 1 && Ordered(config, keys) && k in keys && Extends(k, q)
    ensures Final(config, keys, q).None?
  {
    if k != keys[|keys| - 1] {
      LastIsNotAbove(keys, k, q);
      LastIsGreatest(keys, k);
      NothingWhereExtended(config, keys[..|keys| - 1], k, q);
    }
  }

  /** Of two keys above `q` the one less deep comes first. */
  lemma {:induction false} LastIsDeepest(config: Content, keys: seq<string>, k: string, q: Path)
    requires Ordered(config, keys) && IsDeepest(config, k, q) && k in keys && k != keys[|keys| - 1]
    ensures !IsPrefix(Split(keys[|keys| - 1]), q)
  {
    var key := keys[|keys| - 1];
    if IsPrefix(Split(key), q) {
      PrefixesNest(Split(key), Split(k), q);
      assert Split(k)[..|Split(k)|] == Split(k);
      LastIsNotAbove(keys, k, Split(k));
    }
  }

  lemma {:induction false} DeepestIsFinal(config: Content, keys: seq<string>, k: string, q: Path)
    requires |q| >= 1 && Ordered(config, keys) && k in keys && IsDeepest(config, k, q)
    requires forall other | other in keys :: !Extends(other, q)
    ensures Final(config, keys, q) == At(config[k], q[|Split(k)|..])
  {
    var key := keys[|keys| - 1];
    if k != key {
      assert !Extends(key, q);
      assert IsPrefix(q, Split(key)) ==> Split(key)[..|q|] == Split(key);
      LastIsDeepest(config, keys, k, q);
      LastIsGreatest(keys, k);
      DeepestIsFinal(config, keys[..|keys| - 1], k, q);
    }
  }

  lemma {:induction false} DeepestOf(config: Content, k: string, q: Path) returns (deepest: string)
    requires k in config && IsPrefix(Split(k), q)
    ensures IsDeepest(config, deepest, q)
    decreases |q| - |Split(k)|
  {
    deepest := k;
    if !IsDeepest(config, k, q) {
      var deeper :| deeper in config && IsPrefix(Split(deeper), q) && |Split(deeper)| > |Split(k)|;
      deepest := DeepestOf(config, deeper, q);
    }
  }

  lemma {:induction false} WrittenInOrder(config: Content, keys: seq<string>, tree: Members, assertsHold: bool)
    requires Lists(keys, config) && StringsAscend(keys) && Stand(config, keys, |keys|, tree, assertsHold)
    ensures DeepestDecides(config, tree)
  {
    assert keys[..|keys|] == keys;
    forall q: Path | |q| >= 1 && Extended(config, q)
      ensures Lookup(tree, q).None?
    {
      var k :| k in config && Extends(k, q);
      NothingWhereExtended(config, keys, k, q);
    }
    forall k, q: Path | |q| >= 1 && !Extended(config, q) && IsDeepest(config, k, q)
      ensures Lookup(tree, q) == At(config[k], q[|Split(k)|..])
    {
      DeepestIsFinal(config, keys, k, q);
    }
  }

  /** What is above a key has been written before it. */
  lemma {:induction false} AboveIsBefore(config: Content, keys: seq<string>, j: nat, k: string)
    requires Lists(keys, config) && StringsAscend(keys) && j < |keys|
    requires k in config && k != keys[j] && IsPrefix(Split(k), Split(keys[j]))
    ensures k in keys[..j]
  {
    DeeperIsLater(k, keys[j]);
    var i :| 0 <= i < |keys| && keys[i] == k;
    assert i < j;
    assert keys[..j][i] == k;
  }

  lemma {:induction false} PrefixOfStart(p: Path, q: Path, n: nat)
    requires n <= |q| && IsPrefix(p, q[..n])
    ensures IsPrefix(p, q)
  {
    assert q[..n][..|p|] == q[..|p|];
  }

  /** With nothing in the way, every write finds its way clear. */
  lemma {:induction false} ClearStep(config: Content, keys: seq<string>, j: nat, n: nat)
    requires Lists(keys, config) && StringsAscend(keys) && NothingInTheWay(config)
    requires j < |keys| && 1 <= n < |Split(keys[j])|
    ensures ClearAt(config, keys[..j], keys[j], n)
  {
    var q, before := Split(keys[j])[..n], keys[..j];
    if Final(config, before, q).Some? {
      var above := FinalIsSound(config, before, q);
      var k := DeepestOf(config, above, q);
      PrefixOfStart(Split(k), Split(keys[j]), n);
      AboveIsBefore(config, keys, j, k);
      forall other | other in before
        ensures !Extends(other, q)
      {
        if Extends(other, q) {
          NothingWhereExtended(config, before, other, q);
        }
      }
      DeepestIsFinal(config, before, k, q);
      assert !InTheWay(config, k, q);
    }
  }

  /** The first of the keys that lead further down from `q`. */
  lemma {:induction false} FirstBelow(keys: seq<string>, i: nat, q: Path) returns (j: nat)
    requires i < |keys| && Extends(keys[i], q)
    ensures j < |keys| && Extends(keys[j], q) && forall other | other in keys[..j] :: !Extends(other, q)
  {
    j := i;
    if other :| other in keys[..i] && Extends(other, q) {
      var before :| 0 <= before < i && keys[before] == other;
      j := FirstBelow(keys, before, q);
    }
  }

  /** A value in the way makes the assertion fail as the first key below it is written. */
  lemma {:induction false} BlockedStep(config: Content, keys: seq<string>, key: string, n: nat, k: string)
    requires Lists(keys, config) && StringsAscend(keys)
    requires key in config && 1 <= n < |Split(key)| && InTheWay(config, k, Split(key)[..n])
    ensures !AllClear(config, keys)
  {
    var q := Split(key)[..n];
    var i :| 0 <= i < |keys| && keys[i] == key;
    var j := FirstBelow(keys, i, q);
    assert q == Split(keys[j])[..n];
    PrefixOfStart(Split(k), Split(keys[j]), n);
    AboveIsBefore(config, keys, j, k);
    DeepestIsFinal(config, keys[..j], k, q);
    assert !ClearAt(config, keys[..j], keys[j], n);
  }

  /** The exact condition for the assertion on the descent. */
  lemma {:induction false} ClearInOrder(config: Content, keys: seq<string>)
    requires Lists(keys, config) && StringsAscend(keys)
    ensures AllClear(config, keys) <==> NothingInTheWay(config)
  {
    if NothingInTheWay(config) {
      forall j, n | 0 <= j < |keys| && 1 <= n < |Split(keys[j])|
        ensures ClearAt(config, keys[..j], keys[j], n)
      {
        ClearStep(config, keys, j, n);
      }
    } else {
      var key, n, k :| key in config && 1 <= n < |Split(key)| && InTheWay(config, k, Split(key)[..n]);
      BlockedStep(config, keys, key, n, k);
    }
  }

  lemma {:induction false} PrefixFreeIsClear(config: Content)
    requires PrefixFree(config)
    ensures NothingInTheWay(config)
  {
    forall key, n, k | key in config && 1 <= n < |Split(key)|
      ensures !InTheWay(config, k, Split(key)[..n])
    {
      if InTheWay(config, k, Split(key)[..n]) {
        PrefixOfStart(Split(k), Split(key), n);
      }
    }
  }

  /** A plain value is in the way of every key below it. */
  lemma {:induction false} ClearIsPrefixFree(config: Content)
    requires NoNulls(config) && NoObjects(config) && NothingInTheWay(config)
    ensures PrefixFree(config)
  {
    forall k1, k2 | k1 in config && k2 in config && k1 != k2
      ensures !IsPrefix(Split(k1), Split(k2))
    {
      if IsPrefix(Split(k1), Split(k2)) {
        PlainIsInTheWay(config, k1, k2);
      }
    }
  }

  lemma {:induction false} PlainIsInTheWay(config: Content, k1: string, k2: string)
    requires NoNulls(config) && NoObjects(config) && k1 in config && k2 in config && k1 != k2
    requires IsPrefix(Split(k1), Split(k2))
    ensures |Split(k1)| < |Split(k2)| && InTheWay(config, k1, Split(k2)[..|Split(k1)|])
  {
    var p, q := Split(k1), Split(k2);
    assert |p| == |q| ==> q[..|p|] == q;
    JoinOfSplit(k1);
    JoinOfSplit(k2);
    assert p[..|p|] == p && p[|p|..] == [];
  }

  /** What the source asserts of the values to be saved. */
  predicate NoNulls(config: Content) {
    forall k | k in config :: !config[k].Null?
  }

  ghost predicate NoObjects(config: Content) {
    forall k | k in config :: !config[k].Object?
  }

  lemma {:induction false} ListedInOrder(config: Content)
    ensures Lists(InOrder(config.Keys), config) && StringsAscend(InOrder(config.Keys))
  {
    var keys := InOrder(config.Keys);
    InOrderAscends(config.Keys);
    forall i, j | 0 <= i < j < |keys|
      ensures keys[i] != keys[j]
    {
      StringOrder(keys[i], keys[j], keys[i]);
    }
  }

  class Storage {
    /** The object in the configuration file; None while there is no file. */
    var file: Option<Members>

    constructor ()
      ensures file == None
    {
      file := None;
    }

    /** Entries are written in the order of the map. */
    method Save(config: Content) returns (assertsHold: bool)
      requires NoNulls(config)
      modifies this
      ensures file.Some? && Sound(file.value, config) && DeepestDecides(config, file.value)
      ensures PrefixFree(config) ==> assertsHold && Complete(file.value, config)
      ensures assertsHold <==> NothingInTheWay(config)
      ensures NoObjects(config) ==> (assertsHold <==> PrefixFree(config))
      ensures forall parts: Path, below: Path {:trigger Lookup(file.value, parts + below)} |
        Plain(parts) && Join(parts) in config && StandsApart(config, Join(parts)) ::
        Lookup(file.value, parts + below) == At(config[Join(parts)], below)
    {
      var keys := InOrder(config.Keys);
      ListedInOrder(config);
      var configurationObject: Members;
      configurationObject, assertsHold := WriteAll(config, keys);
      WrittenIsSaved(config, keys, configurationObject, assertsHold);
      WrittenInOrder(config, keys, configurationObject, assertsHold);
      assert keys[..|keys|] == keys;
      ClearInOrder(config, keys);
      if PrefixFree(config) {
        PrefixFreeIsClear(config);
      } else if NoObjects(config) && NothingInTheWay(config) {
        ClearIsPrefixFree(config);
      }
      forall parts: Path, below: Path | Plain(parts) && Join(parts) in config && StandsApart(config, Join(parts))
        ensures Lookup(configurationObject, parts + below) == At(config[Join(parts)], below)
      {
        SavedAtItsPath(config, configurationObject, parts, below);
      }
      file := Some(configurationObject);
    }

    /** A missing file loads as the empty configuration. */
    method Load() returns (config: Content, assertsHold: bool)
      ensures file.None? ==> config == map[] && assertsHold
      ensures file.Some? ==> ReadBack(file.value, "", config) && (assertsHold <==> AllReadable(file.value))
    {
      config, assertsHold := map[], true;
      if file.Some? {
        config, assertsHold := ReadNode(file.value, "");
      }
    }
  }

  // ----- reading -----

  /** `content` lists exactly the names of the leaves of `obj` that are not objects, each with the value of the
      first of them. */
  ghost predicate ReadBack(obj: Members, prefix: string, content: Content) {
    ReadOf(obj, prefix, obj.Keys, content)
  }

  /** The same for what is found under some of the members. */
  ghost predicate ReadOf(obj: Members, prefix: string, heads: set<string>, content: Content) {
    && (forall path: Path | |path| >= 1 && path[0] in heads && IsRead(Lookup(obj, path)) ::
      FullName(prefix, path) in content)
    && (forall k {:trigger ReadFrom(obj, prefix, heads, k, content[k])} | k in content ::
      ReadFrom(obj, prefix, heads, k, content[k]))
  }

  predicate IsRead(leaf: Option<Json>) {
    leaf.Some? && !leaf.value.Object?
  }

  ghost predicate ReadFrom(obj: Members, prefix: string, heads: set<string>, name: string, value: Json) {
    exists path: Path :: |path| >= 1 && path[0] in heads && ReadAs(obj, prefix, path, name, value)
      && IsFirst(obj, prefix, heads, path)
  }

  ghost predicate ReadAs(obj: Members, prefix: string, path: Path, name: string, value: Json)
    requires |path| >= 1
  {
    Lookup(obj, path) == Some(value) && !value.Object? && FullName(prefix, path) == name
  }

  /** Every other leaf that is read under the same name comes later. */
  ghost predicate IsFirst(obj: Members, prefix: string, heads: set<string>, path: Path)
    requires |path| >= 1
  {
    forall other: Path | IsNamesake(obj, prefix, heads, path, other) :: other == path || PathLess(path, other)
  }

  ghost predicate IsNamesake(obj: Members, prefix: string, heads: set<string>, path: Path, other: Path)
    requires |path| >= 1
  {
    && |other| >= 1 && other[0] in heads
    && IsRead(Lookup(obj, other)) && FullName(prefix, other) == FullName(prefix, path)
  }

  /** Members are visited in the order of their names, going down into each at once. */
  predicate PathLess(p: Path, q: Path) {
    if p == [] || q == [] then p == [] && q != []
    else StringLess(p[0], q[0]) || (p[0] == q[0] && PathLess(p[1..], q[1..]))
  }

  /** Arrays and nulls are what the assertions on reading exclude. */
  predicate IsReadable(leaf: Option<Json>) {
    leaf.Some? ==> !leaf.value.Array? && !leaf.value.Null?
  }

  ghost predicate AllReadable(obj: Members) {
    forall path: Path | |path| >= 1 :: IsReadable(Lookup(obj, path))
  }

  /** Members are visited in the order of their names; an entry that is already there is kept, as std::map::insert
      and emplace do. `assertsHold` tells whether no array and no null was met. */
  method ReadNode(obj: Members, prefix: string) returns (content: Content, assertsHold: bool)
    ensures ReadBack(obj, prefix, content)
    ensures assertsHold <==> AllReadable(obj)
    ensures assertsHold <==> forall path: Path | |path| >= 1 && Lookup(obj, path).Some? ::
      !Lookup(obj, path).value.Array? && !Lookup(obj, path).value.Null?
    decreases Object(obj), 0
  {
    content, assertsHold := map[], true;
    var remaining := obj.Keys;
    while remaining != {}
      invariant remaining <= obj.Keys
      invariant forall a, b | a in obj.Keys - remaining && b in remaining :: StringLess(a, b)
      invariant ReadOf(obj, prefix, obj.Keys - remaining, content)
      invariant assertsHold <==>
        forall path: Path | |path| >= 1 && path[0] !in remaining :: IsReadable(Lookup(obj, path))
    {
      var name := Least(remaining);
      var subContent, ok := ReadMember(obj, prefix, name);
      ghost var before := remaining;
      remaining := remaining - {name};
      ReadOneMore(obj, prefix, obj.Keys - before, name, content, subContent);
      assert obj.Keys - remaining == obj.Keys - before + {name};
      content := subContent + content;
      assertsHold := assertsHold && ok;
      assert forall path: Path | |path| >= 1 && path[0] !in remaining :: path[0] !in before || path[0] == name;
    }
    assert obj.Keys - remaining == obj.Keys;
    assert AllReadable(obj) <==> forall path: Path | |path| >= 1 :: IsReadable(Lookup(obj, path));
  }

  lemma {:induction false} ReadOneMore(obj: Members, prefix: string, heads: set<string>, name: string,
      content: Content, sub: Content)
    requires ReadOf(obj, prefix, heads, content) && ReadOf(obj, prefix, {name}, sub)
    requires forall head | head in heads :: StringLess(head, name)
    ensures ReadOf(obj, prefix, heads + {name}, sub + content)
  {
    forall k | k in sub + content
      ensures ReadFrom(obj, prefix, heads + {name}, k, (sub + content)[k])
    {
      if k in content {
        ReadBefore(obj, prefix, heads, name, content, k);
      } else {
        ReadNow(obj, prefix, heads, name, content, sub, k);
      }
    }
  }

  lemma {:induction false} ReadBefore(obj: Members, prefix: string, heads: set<string>, name: string,
      content: Content, k: string)
    requires ReadOf(obj, prefix, heads, content) && k in content
    requires forall head | head in heads :: StringLess(head, name)
    ensures ReadFrom(obj, prefix, heads + {name}, k, content[k])
  {
    assert ReadFrom(obj, prefix, heads, k, content[k]);
    var path: Path :| |path| >= 1 && path[0] in heads && ReadAs(obj, prefix, path, k, content[k])
      && IsFirst(obj, prefix, heads, path);
    forall other: Path | IsNamesake(obj, prefix, heads + {name}, path, other)
      ensures other == path || PathLess(path, other)
    {
      assert other[0] in heads ==> IsNamesake(obj, prefix, heads, path, other);
    }
  }

  /** A name that none of the earlier members has is read from the new one. */
  lemma {:induction false} ReadNow(obj: Members, prefix: string, heads: set<string>, name: string,
      content: Content, sub: Content, k: string)
    requires ReadOf(obj, prefix, heads, content) && ReadOf(obj, prefix, {name}, sub) && k in sub && k !in content
    ensures ReadFrom(obj, prefix, heads + {name}, k, sub[k])
  {
    assert ReadFrom(obj, prefix, {name}, k, sub[k]);
    var path: Path :| |path| >= 1 && path[0] in {name} && ReadAs(obj, prefix, path, k, sub[k])
      && IsFirst(obj, prefix, {name}, path);
    forall other: Path | IsNamesake(obj, prefix, heads + {name}, path, other)
      ensures other == path || PathLess(path, other)
    {
      assert IsNamesake(obj, prefix, {name}, path, other);
    }
  }

  /** One member: an object is read under its own name, anything else is an entry. */
  method ReadMember(obj: Members, prefix: string, name: string) returns (content: Content, assertsHold: bool)
    requires name in obj
    ensures ReadOf(obj, prefix, {name}, content)
    ensures assertsHold <==> forall path: Path | |path| >= 1 && path[0] == name :: IsReadable(Lookup(obj, path))
    decreases obj[name], 1
  {
    var value := obj[name];
    var subNamespace := Qualified(prefix, name);
    if value.Object? {
      content, assertsHold := ReadNode(value.members, subNamespace);
      ReadBelow(obj, prefix, name, content);
      ReadableBelow(obj, name);
    } else {
      content, assertsHold := map[subNamespace := value], !value.Array? && !value.Null?;
      ReadPlain(obj, prefix, name);
      assert IsReadable(Lookup(obj, [name])) <==> assertsHold;
    }
  }

  lemma {:induction false} ReadBelow(obj: Members, prefix: string, name: string, content: Content)
    requires name in obj && obj[name].Object? && ReadBack(obj[name].members, Qualified(prefix, name), content)
    ensures ReadOf(obj, prefix, {name}, content)
  {
    forall path: Path | |path| >= 1 && path[0] in {name} && IsRead(Lookup(obj, path))
      ensures FullName(prefix, path) in content
    {
      ReadOneLevelDown(obj, prefix, name, path);
    }
    forall k | k in content
      ensures ReadFrom(obj, prefix, {name}, k, content[k])
    {
      ReadFromBelow(obj, prefix, name, content, k);
    }
  }

  lemma {:induction false} ReadFromBelow(obj: Members, prefix: string, name: string, content: Content, k: string)
    requires name in obj && obj[name].Object? && ReadBack(obj[name].members, Qualified(prefix, name), content)
    requires k in content
    ensures ReadFrom(obj, prefix, {name}, k, content[k])
  {
    var members, inner := obj[name].members, Qualified(prefix, name);
    assert ReadFrom(members, inner, members.Keys, k, content[k]);
    var below: Path :| |below| >= 1 && below[0] in members.Keys && ReadAs(members, inner, below, k, content[k])
      && IsFirst(members, inner, members.Keys, below);
    ReadOneLevelUp(obj, prefix, name, below, k, content[k]);
    var path := [name] + below;
    assert path[1..] == below;
    forall other: Path | IsNamesake(obj, prefix, {name}, path, other)
      ensures other == path || PathLess(path, other)
    {
      ReadOneLevelDown(obj, prefix, name, other);
      assert IsNamesake(members, inner, members.Keys, below, other[1..]);
      assert other == [name] + other[1..];
    }
  }

  lemma {:induction false} ReadPlain(obj: Members, prefix: string, name: string)
    requires name in obj && !obj[name].Object?
    ensures ReadOf(obj, prefix, {name}, map[Qualified(prefix, name) := obj[name]])
  {
    forall path: Path | |path| >= 1 && path[0] in {name} && IsRead(Lookup(obj, path))
      ensures path == [name]
    {
      assert path == [path[0]] + path[1..];
    }
    assert ReadAs(obj, prefix, [name], Qualified(prefix, name), obj[name]);
    assert IsFirst(obj, prefix, {name}, [name]);
  }

  lemma {:induction false} ReadOneLevelDown(obj: Members, prefix: string, name: string, path: Path)
    requires name in obj && obj[name].Object? && |path| >= 1 && path[0] == name && IsRead(Lookup(obj, path))
    ensures |path| >= 2 && IsRead(Lookup(obj[name].members, path[1..]))
    ensures FullName(prefix, path) == FullName(Qualified(prefix, name), path[1..])
  {
    assert |path| >= 2;
  }

  lemma {:induction false} ReadOneLevelUp(obj: Members, prefix: string, name: string, below: Path, k: string,
      value: Json)
    requires name in obj && obj[name].Object? && |below| >= 1
    requires ReadAs(obj[name].members, Qualified(prefix, name), below, k, value)
    ensures ReadAs(obj, prefix, [name] + below, k, value)
  {
    var path := [name] + below;
    assert path[1..] == below;
  }

  lemma {:induction false} ReadableBelow(obj: Members, name: string)
    requires name in obj && obj[name].Object?
    ensures AllReadable(obj[name].members) <==>
      forall path: Path | |path| >= 1 && path[0] == name :: IsReadable(Lookup(obj, path))
  {
    var members := obj[name].members;
    forall path: Path | |path| >= 1 && path[0] == name && AllReadable(members)
      ensures IsReadable(Lookup(obj, path))
    {
      if |path| >= 2 {
        assert IsReadable(Lookup(members, path[1..]));
      }
    }
    if forall path: Path | |path| >= 1 && path[0] == name :: IsReadable(Lookup(obj, path)) {
      forall path: Path | |path| >= 1
        ensures IsReadable(Lookup(members, path))
      {
        assert ([name] + path)[1..] == path;
        assert IsReadable(Lookup(obj, [name] + path));
      }
    }
  }

  // ----- the round trip -----

  /** No value is, or has somewhere in its objects, an array or a null. */
  ghost predicate AllValuesReadable(config: Content) {
    forall k, path: Path | k in config :: IsReadable(At(config[k], path))
  }

  predicate NoArrays(config: Content) {
    forall k | k in config :: !config[k].Array?
  }

  lemma {:induction false} PlainAreReadable(config: Content)
    requires NoNulls(config) && NoObjects(config)
    ensures AllValuesReadable(config) <==> NoArrays(config)
  {
    if AllValuesReadable(config) {
      forall k | k in config
        ensures !config[k].Array?
      {
        assert IsReadable(At(config[k], []));
      }
    }
  }

  /** Saving and loading gives the configuration back if and only if no key's path is a prefix of another's, no
      multi-component key starts with an empty component, and no value is an object, which would be read as
      several entries. In a prefix-free configuration the assertions on writing and reading hold if and only
      if its values have no arrays and no nulls; without objects they fail for every other configuration. */
  method SaveThenLoad(config: Content) returns (loaded: Content, assertsHold: bool)
    requires NoNulls(config)
    ensures loaded == config <==> PrefixFree(config) && HeadsNonEmpty(config) && NoObjects(config)
    ensures PrefixFree(config) ==> (assertsHold <==> AllValuesReadable(config))
    ensures NoObjects(config) ==> (assertsHold <==> PrefixFree(config) && NoArrays(config))
  {
    var storage := new Storage();
    var written := storage.Save(config);
    var read: bool;
    loaded, read := storage.Load();
    assertsHold := written && read;
    ghost var tree := storage.file.value;
    if PrefixFree(config) {
      ReadableAsSaved(config, tree);
      if HeadsNonEmpty(config) && NoObjects(config) {
        RoundTrip(config, tree, loaded);
      }
    }
    if loaded == config {
      NothingLost(config, tree);
    }
    if NoObjects(config) {
      PlainAreReadable(config);
    }
  }

  lemma {:induction false} ReadableAsSaved(config: Content, tree: Members)
    requires Sound(tree, config) && Complete(tree, config)
    ensures AllReadable(tree) <==> AllValuesReadable(config)
  {
    if AllReadable(tree) {
      forall k, path: Path | k in config
        ensures IsReadable(At(config[k], path))
      {
        var q := Split(k) + path;
        assert q[..|Split(k)|] == Split(k) && q[|Split(k)|..] == path;
        assert IsPrefix(Split(k), q);
        assert Lookup(tree, q) == At(config[k], path);
        assert IsReadable(Lookup(tree, q));
      }
    }
    if AllValuesReadable(config) {
      forall q: Path | |q| >= 1
        ensures IsReadable(Lookup(tree, q))
      {
        if Lookup(tree, q).Some? {
          var k :| From(config, k, q, Lookup(tree, q));
          assert IsReadable(At(config[k], q[|Split(k)|..]));
        }
      }
    }
  }

  /** For prefix-free keys any order of the entries gives the same tree. */
  method SaveTwice(config: Content, order: seq<string>, other: seq<string>) returns (first: Members, second: Members)
    requires NoNulls(config) && Lists(order, config) && Lists(other, config)
    ensures PrefixFree(config) ==> first == second
  {
    var asserted: bool;
    first, asserted := WriteAll(config, order);
    WrittenIsSaved(config, order, first, asserted);
    second, asserted := WriteAll(config, other);
    WrittenIsSaved(config, other, second, asserted);
    if PrefixFree(config) {
      forall q: Path | |q| >= 1
        ensures Lookup(first, q) == Lookup(second, q)
      {
        SameLeaf(config, first, second, q);
        SameLeaf(config, second, first, q);
      }
      TreesAgree(first, second);
    }
  }

  lemma {:induction false} SameLeaf(config: Content, a: Members, b: Members, q: Path)
    requires Sound(a, config) && Complete(b, config) && |q| >= 1
    ensures Lookup(a, q).Some? ==> Lookup(b, q) == Lookup(a, q)
  {
    if Lookup(a, q).Some? {
      var k :| From(config, k, q, Lookup(a, q));
      assert IsPrefix(Split(k), q);
    }
  }

  /** A name read from a tree that holds plain values only is the name of one of the keys. */
  lemma {:induction false} NameOfKey(config: Content, tree: Members, loaded: Content, k: string) returns (key: string)
    requires Sound(tree, config) && NoObjects(config) && ReadBack(tree, "", loaded) && k in loaded
    ensures key in config && FullName("", Split(key)) == k && Lookup(tree, Split(key)) == Some(loaded[k])
    ensures loaded[k] == config[key]
  {
    assert ReadFrom(tree, "", tree.Keys, k, loaded[k]);
    var path: Path :| |path| >= 1 && path[0] in tree.Keys && ReadAs(tree, "", path, k, loaded[k])
      && IsFirst(tree, "", tree.Keys, path);
    key := OwnerOf(config, tree, path);
  }

  lemma {:induction false} OwnerOf(config: Content, tree: Members, path: Path) returns (key: string)
    requires Sound(tree, config) && NoObjects(config) && |path| >= 1 && Lookup(tree, path).Some?
    ensures key in config && path == Split(key) && Lookup(tree, path) == Some(config[key])
  {
    key :| From(config, key, path, Lookup(tree, path));
    var parts := Split(key);
    assert path[|parts|..] == [];
    assert path == path[..|parts|] + path[|parts|..];
  }

  lemma {:induction false} RoundTrip(config: Content, tree: Members, loaded: Content)
    requires Sound(tree, config) && Complete(tree, config)
    requires HeadsNonEmpty(config) && NoObjects(config) && ReadBack(tree, "", loaded)
    ensures loaded == config
  {
    if loaded != config {
      var k := Difference(loaded, config);
      if k in config {
        KeyIsRead(config, tree, loaded, k);
      }
      ReadIsKey(config, tree, loaded, k);
    }
  }

  lemma {:induction false} Difference(a: Content, b: Content) returns (k: string)
    requires a != b
    ensures k in a || k in b
    ensures k in a && k in b ==> a[k] != b[k]
  {
    if x :| x in a && (x !in b || a[x] != b[x]) {
      k := x;
    } else {
      assert b.Keys <= a.Keys ==> a == b;
      k :| k in b && k !in a;
    }
  }

  lemma {:induction false} ReadIsKey(config: Content, tree: Members, loaded: Content, k: string)
    requires Sound(tree, config) && HeadsNonEmpty(config) && NoObjects(config)
    requires ReadBack(tree, "", loaded) && k in loaded
    ensures k in config && loaded[k] == config[k]
  {
    var key := NameOfKey(config, tree, loaded, k);
    KeepsName(key);
  }

  lemma {:induction false} KeyIsRead(config: Content, tree: Members, loaded: Content, k: string)
    requires Complete(tree, config) && HeadsNonEmpty(config) && NoObjects(config)
    requires ReadBack(tree, "", loaded) && k in config
    ensures k in loaded
  {
    KeepsName(k);
    var path := Split(k);
    assert path[..|path|] == path && path[|path|..] == [];
    assert IsPrefix(path, path);
    assert Lookup(tree, path) == At(config[k], []) == Some(config[k]);
    assert IsRead(Lookup(tree, path));
  }

  lemma {:induction false} KeepsName(k: string)
    requires |Split(k)| == 1 || Split(k)[0] != ""
    ensures FullName("", Split(k)) == k
  {
    FullNameIsJoin(Split(k));
    JoinOfSplit(k);
  }

  /** If the saved configuration is what is read, all three side conditions hold. */
  lemma {:induction false} NothingLost(config: Content, tree: Members)
    requires ReadBack(tree, "", config) && Sound(tree, config)
    ensures PrefixFree(config) && HeadsNonEmpty(config) && NoObjects(config)
  {
    ReadNoObjects(config, tree);
    forall k | k in config
      ensures |Split(k)| == 1 || Split(k)[0] != ""
    {
      var key := NameOfKey(config, tree, config, k);
      ReadNameHasHead(key);
    }
    forall k1, k2 | k1 in config && k2 in config && k1 != k2
      ensures !IsPrefix(Split(k1), Split(k2))
    {
      AllFound(config, tree, k1);
      AllFound(config, tree, k2);
      NotNested(tree, k1, k2);
    }
  }

  lemma {:induction false} ReadNoObjects(config: Content, tree: Members)
    requires ReadBack(tree, "", config)
    ensures NoObjects(config)
  {
    forall k | k in config
      ensures !config[k].Object?
    {
      assert ReadFrom(tree, "", tree.Keys, k, config[k]);
      var path: Path :| |path| >= 1 && ReadAs(tree, "", path, k, config[k]);
    }
  }

  lemma {:induction false} AllFound(config: Content, tree: Members, k: string)
    requires ReadBack(tree, "", config) && Sound(tree, config)
    requires HeadsNonEmpty(config) && NoObjects(config) && k in config
    ensures Lookup(tree, Split(k)).Some?
  {
    var key := NameOfKey(config, tree, config, k);
    KeepsName(key);
  }

  lemma {:induction false} NotNested(tree: Members, k1: string, k2: string)
    requires k1 != k2 && Lookup(tree, Split(k1)).Some? && Lookup(tree, Split(k2)).Some?
    ensures !IsPrefix(Split(k1), Split(k2))
  {
    JoinOfSplit(k1);
    JoinOfSplit(k2);
    var p, q := Split(k1), Split(k2);
    assert At(Object(tree), p) == Lookup(tree, p) && At(Object(tree), q) == Lookup(tree, q);
    if IsPrefix(p, q) && |p| < |q| {
      LeafBlocksDeeper(Object(tree), p, q);
    }
    if |p| == |q| {
      assert q[..|p|] == q;
    }
  }
}
