/** Container algorithms: the in-place removal of unique elements and the three-way map diff. */
module ContainersUtils {

  // ----- remove_unique -----

  /** The element at `i` equals one of its neighbours. */
  predicate HasTwin<T>(s: seq<T>, p: (T, T) -> bool, i: nat)
    requires i < |s|
  {
    (i > 0 && p(s[i - 1], s[i])) || (i + 1 < |s| && p(s[i + 1], s[i]))
  }

  /** The first `n` elements of `s` without those that have no twin in `s`. */
  function Twins<T>(s: seq<T>, p: (T, T) -> bool, n: nat): seq<T>
    requires n <= |s|
  {
    if n == 0 then []
    else Twins(s, p, n - 1) + (if HasTwin(s, p, n - 1) then [s[n - 1]] else [])
  }

  /** The range is overwritten while it is read, yet the elements compared are always the original
      ones. Moving an element is a copy, as for the records this is used on. */
  method RemoveUnique<T>(a: array<T>, p: (T, T) -> bool) returns (result: nat)
    modifies a
    ensures result <= a.Length
    ensures a[..result] == Twins(old(a[..]), p, a.Length)
  {
    if a.Length < 2 {
      return 0;
    }
    ghost var s := a[..];
    result := 0;
    var it := 0;
    while it != a.Length
      invariant 0 <= it <= a.Length && result <= it
      invariant a[..result] == Twins(s, p, it)
      invariant forall k | 0 <= k < a.Length && it - 1 <= k :: a[k] == s[k]
    {
      var nonUnique := false;
      if it != 0 {
        nonUnique := p(a[it - 1], a[it]);
      }
      if !nonUnique {
        if it + 1 != a.Length {
          nonUnique := p(a[it + 1], a[it]);
        }
      }
      if nonUnique {
        if result != it {
          a[result] := a[it];
        }
        result := result + 1;
      }
      it := it + 1;
    }
  }

  /** An element is kept exactly when it has a twin, and the kept ones stay in order. */
  lemma {:induction false} TwinsAreInOrder<T>(s: seq<T>, p: (T, T) -> bool, n: nat) returns (at: seq<nat>)
    requires n <= |s|
    ensures ArePositions(s, p, n, Twins(s, p, n), at)
  {
    if n == 0 {
      at := [];
    } else {
      at := TwinsAreInOrder(s, p, n - 1);
      OneMorePosition(s, p, n, Twins(s, p, n - 1), at);
      if HasTwin(s, p, n - 1) {
        at := at + [n - 1];
      }
    }
  }

  /** `at` lists, in order, the positions below `n` of all elements that have a twin; `twins` are these. */
  ghost predicate ArePositions<T>(s: seq<T>, p: (T, T) -> bool, n: nat, twins: seq<T>, at: seq<nat>)
    requires n <= |s|
  {
    && |at| == |twins|
    && (forall k | 0 <= k < |at| :: at[k] < n && HasTwin(s, p, at[k]) && twins[k] == s[at[k]])
    && (forall k, l | 0 <= k < l < |at| :: at[k] < at[l])
    && (forall i: nat | i < n && HasTwin(s, p, i) :: i in at)
  }

  lemma {:induction false} OneMorePosition<T>(s: seq<T>, p: (T, T) -> bool, n: nat, twins: seq<T>, at: seq<nat>)
    requires 0 < n <= |s| && ArePositions(s, p, n - 1, twins, at)
    ensures if HasTwin(s, p, n - 1) then ArePositions(s, p, n, twins + [s[n - 1]], at + [n - 1])
      else ArePositions(s, p, n, twins, at)
  {
  }

  // ----- ordered maps -----

  /** The keys of a map are visited in ascending order; map algorithms compare keys only. */
  ghost predicate Ascending(s: seq<int>) {
    forall i, j | 0 <= i < j < |s| :: s[i] < s[j]
  }

  lemma {:induction false} SomeElement(s: set<int>)
    ensures s == {} || exists k :: k in s
  {
    if forall k: int :: k !in s {
      assert s == {};
    }
  }

  lemma {:induction false} LeastOf(s: set<int>) returns (k: int)
    requires s != {}
    ensures k in s && forall j | j in s :: k <= j
    decreases |s|
  {
    SomeElement(s);
    k :| k in s;
    if s != {k} {
      var rest := s - {k};
      assert s == rest + {k};
      var least := LeastOf(rest);
      k := if k < least then k else least;
    }
  }

  lemma {:induction false} LeastExists(s: set<int>)
    requires s != {}
    ensures exists k :: k in s && forall j | j in s :: k <= j
  {
    var k := LeastOf(s);
  }

  function Least(s: set<int>): (k: int)
    requires s != {}
    ensures k in s && forall j | j in s :: k <= j
  {
    LeastExists(s);
    var k :| k in s && forall j | j in s :: k <= j;
    k
  }

  /** The elements of a finite set in ascending order. */
  function InOrder(s: set<int>): (r: seq<int>)
    ensures forall k :: k in r <==> k in s
    decreases |s|
  {
    if s == {} then []
    else
      var k := Least(s);
      [k] + InOrder(s - {k})
  }

  lemma {:induction false} InOrderAscends(s: set<int>)
    ensures Ascending(InOrder(s)) && |InOrder(s)| == |s|
    decreases |s|
  {
    if s != {} {
      var k := Least(s);
      var rest := InOrder(s - {k});
      InOrderAscends(s - {k});
      LeastFirst(k, rest);
    }
  }

  lemma {:induction false} LeastFirst(k: int, rest: seq<int>)
    requires Ascending(rest) && forall x | x in rest :: k < x
    ensures Ascending([k] + rest)
  {
    forall i | 0 <= i < |rest|
      ensures k < rest[i]
    {
      assert rest[i] in rest;
    }
  }

  /** std::set_difference on ascending keys. */
  function SetDifference(a: seq<int>, b: seq<int>): seq<int>
    decreases |a| + |b|
  {
    if a == [] then []
    else if b == [] then a
    else if a[0] < b[0] then [a[0]] + SetDifference(a[1..], b)
    else if b[0] < a[0] then SetDifference(a, b[1..])
    else SetDifference(a[1..], b[1..])
  }

  /** std::set_intersection on ascending keys. */
  function SetIntersection(a: seq<int>, b: seq<int>): seq<int>
    decreases |a| + |b|
  {
    if a == [] || b == [] then []
    else if a[0] < b[0] then SetIntersection(a[1..], b)
    else if b[0] < a[0] then SetIntersection(a, b[1..])
    else [a[0]] + SetIntersection(a[1..], b[1..])
  }

  lemma {:induction false} AscendingCons(x: int, s: seq<int>)
    requires Ascending(s) && forall k | k in s :: x < k
    ensures Ascending([x] + s)
  {
    forall i | 0 <= i < |s|
      ensures x < s[i]
    {
      assert s[i] in s;
    }
  }

  /** The merge walk of the library finds exactly the keys missing from the other range. */
  lemma {:induction false} SetDifferenceIsExact(a: seq<int>, b: seq<int>)
    requires Ascending(a) && Ascending(b)
    ensures Ascending(SetDifference(a, b))
    ensures forall k :: k in SetDifference(a, b) <==> k in a && k !in b
    decreases |a| + |b|
  {
    if a != [] && b != [] {
      if a[0] < b[0] {
        SetDifferenceIsExact(a[1..], b);
        AscendingCons(a[0], SetDifference(a[1..], b));
      } else if b[0] < a[0] {
        SetDifferenceIsExact(a, b[1..]);
      } else {
        SetDifferenceIsExact(a[1..], b[1..]);
      }
    }
  }

  lemma {:induction false} SetIntersectionIsExact(a: seq<int>, b: seq<int>)
    requires Ascending(a) && Ascending(b)
    ensures Ascending(SetIntersection(a, b))
    ensures forall k :: k in SetIntersection(a, b) <==> k in a && k in b
    decreases |a| + |b|
  {
    if a != [] && b != [] {
      if a[0] < b[0] {
        SetIntersectionIsExact(a[1..], b);
      } else if b[0] < a[0] {
        SetIntersectionIsExact(a, b[1..]);
      } else {
        SetIntersectionIsExact(a[1..], b[1..]);
        AscendingCons(a[0], SetIntersection(a[1..], b[1..]));
      }
    }
  }

  // ----- compare -----

  /** Every key of the list is a key of the map. */
  predicate Covers<V>(m: map<int, V>, keys: seq<int>) {
    forall i | 0 <= i < |keys| :: keys[i] in m
  }

  function RemovedKeys<V>(lhs: map<int, V>, rhs: map<int, V>): (r: seq<int>)
    ensures Ascending(r) && Covers(lhs, r)
    ensures forall k :: k in r <==> k in lhs && k !in rhs
  {
    InOrderAscends(lhs.Keys);
    InOrderAscends(rhs.Keys);
    SetDifferenceIsExact(InOrder(lhs.Keys), InOrder(rhs.Keys));
    var r := SetDifference(InOrder(lhs.Keys), InOrder(rhs.Keys));
    assert forall i | 0 <= i < |r| :: r[i] in r;
    r
  }

  function CommonKeys<V>(lhs: map<int, V>, rhs: map<int, V>): (r: seq<int>)
    ensures Ascending(r) && Covers(lhs, r) && Covers(rhs, r)
    ensures forall k :: k in r <==> k in lhs && k in rhs
  {
    InOrderAscends(lhs.Keys);
    InOrderAscends(rhs.Keys);
    SetIntersectionIsExact(InOrder(lhs.Keys), InOrder(rhs.Keys));
    var r := SetIntersection(InOrder(lhs.Keys), InOrder(rhs.Keys));
    assert forall i | 0 <= i < |r| :: r[i] in r;
    r
  }

  function Differing<V>(keys: seq<int>, lhs: map<int, V>, rhs: map<int, V>, differ: (V, V) -> bool): (r: seq<int>)
    requires Covers(lhs, keys) && Covers(rhs, keys)
    ensures Covers(lhs, r) && Covers(rhs, r)
    ensures forall k :: k in r <==> k in keys && differ(lhs[k], rhs[k])
  {
    if keys == [] then []
    else
      var n := |keys| - 1;
      assert keys == keys[..n] + [keys[n]];
      Differing(keys[..n], lhs, rhs, differ) + (if differ(lhs[keys[n]], rhs[keys[n]]) then [keys[n]] else [])
  }

  lemma {:induction false} DifferingAscends<V>(keys: seq<int>, lhs: map<int, V>, rhs: map<int, V>,
      differ: (V, V) -> bool)
    requires Ascending(keys) && Covers(lhs, keys) && Covers(rhs, keys)
    ensures Ascending(Differing(keys, lhs, rhs, differ))
  {
    if keys != [] {
      var n := |keys| - 1;
      var shorter := Differing(keys[..n], lhs, rhs, differ);
      assert keys == keys[..n] + [keys[n]];
      DifferingAscends(keys[..n], lhs, rhs, differ);
      forall i | 0 <= i < |shorter|
        ensures shorter[i] < keys[n]
      {
        assert shorter[i] in shorter;
      }
    }
  }

  function ChangedKeys<V>(lhs: map<int, V>, rhs: map<int, V>, differ: (V, V) -> bool): (r: seq<int>)
    ensures Covers(lhs, r) && Covers(rhs, r)
    ensures forall k :: k in r <==> k in lhs && k in rhs && differ(lhs[k], rhs[k])
  {
    Differing(CommonKeys(lhs, rhs), lhs, rhs, differ)
  }

  function Pairs<V>(m: map<int, V>, keys: seq<int>): (r: seq<(int, V)>)
    requires Covers(m, keys)
    ensures |r| == |keys| && forall i | 0 <= i < |keys| :: r[i] == (keys[i], m[keys[i]])
  {
    seq(|keys|, i requires 0 <= i < |keys| => (keys[i], m[keys[i]]))
  }

  function Triples<V>(lhs: map<int, V>, rhs: map<int, V>, keys: seq<int>): (r: seq<(int, V, V)>)
    requires Covers(lhs, keys) && Covers(rhs, keys)
    ensures |r| == |keys| && forall i | 0 <= i < |keys| :: r[i] == (keys[i], lhs[keys[i]], rhs[keys[i]])
  {
    seq(|keys|, i requires 0 <= i < |keys| => (keys[i], lhs[keys[i]], rhs[keys[i]]))
  }

  /** The three-way diff; `differ` is the inequality of the value type. */
  method Compare<V>(lhs: map<int, V>, rhs: map<int, V>, differ: (V, V) -> bool)
    returns (removed: seq<(int, V)>, changed: seq<(int, V, V)>, added: seq<(int, V)>)
    ensures removed == Pairs(lhs, RemovedKeys(lhs, rhs))
    ensures changed == Triples(lhs, rhs, ChangedKeys(lhs, rhs, differ))
    ensures added == Pairs(rhs, RemovedKeys(rhs, lhs))
  {
    removed := Pairs(lhs, RemovedKeys(lhs, rhs));
    added := Pairs(rhs, RemovedKeys(rhs, lhs));
    var common := CommonKeys(lhs, rhs);
    changed := ListChanged(Pairs(lhs, common), common, lhs, rhs, differ);
  }

  /** The loop over the entries found on both sides. */
  method ListChanged<V>(intersection: seq<(int, V)>, ghost common: seq<int>, ghost lhs: map<int, V>,
      rhs: map<int, V>, differ: (V, V) -> bool) returns (changed: seq<(int, V, V)>)
    requires Covers(lhs, common) && Covers(rhs, common) && intersection == Pairs(lhs, common)
    ensures changed == Triples(lhs, rhs, Differing(common, lhs, rhs, differ))
  {
    changed := [];
    for i := 0 to |intersection|
      invariant changed == Triples(lhs, rhs, Differing(common[..i], lhs, rhs, differ))
    {
      var data := intersection[i];
      OneMoreDiffering(common, lhs, rhs, differ, i);
      if differ(data.1, rhs[data.0]) {
        changed := changed + [(data.0, data.1, rhs[data.0])];
      }
    }
    assert common[..|common|] == common;
  }

  lemma {:induction false} OneMoreDiffering<V>(keys: seq<int>, lhs: map<int, V>, rhs: map<int, V>,
      differ: (V, V) -> bool, i: nat)
    requires i < |keys| && Covers(lhs, keys) && Covers(rhs, keys)
    ensures var k := keys[i];
      Triples(lhs, rhs, Differing(keys[..i + 1], lhs, rhs, differ)) ==
      Triples(lhs, rhs, Differing(keys[..i], lhs, rhs, differ)) +
      (if differ(lhs[k], rhs[k]) then [(k, lhs[k], rhs[k])] else [])
  {
    assert keys[..i + 1][..i] == keys[..i];
  }

  /** For any two maps the outputs list, in ascending order, exactly the keys that are only on the
      left, on both sides with different values, and only on the right. */
  lemma {:induction false} DiffIsExact<V>(lhs: map<int, V>, rhs: map<int, V>, differ: (V, V) -> bool)
    ensures var removed, changed, added := RemovedKeys(lhs, rhs), ChangedKeys(lhs, rhs, differ), RemovedKeys(rhs, lhs);
      && Ascending(removed) && Ascending(changed) && Ascending(added)
      && (forall k :: k in removed <==> k in lhs && k !in rhs)
      && (forall k :: k in changed <==> k in lhs && k in rhs && differ(lhs[k], rhs[k]))
      && (forall k :: k in added <==> k !in lhs && k in rhs)
  {
    DifferingAscends(CommonKeys(lhs, rhs), lhs, rhs, differ);
  }

  // ----- applying a diff -----

  datatype Edit<+V> = Erase(key: int) | Put(key: int, value: V)

  function Edited<V>(m: map<int, V>, edits: seq<Edit<V>>): map<int, V> {
    if edits == [] then m
    else
      var before := Edited(m, edits[..|edits| - 1]);
      match edits[|edits| - 1]
      case Erase(k) => before - {k}
      case Put(k, v) => before[k := v]
  }

  lemma {:induction false} EditedTwice<V>(m: map<int, V>, first: seq<Edit<V>>, second: seq<Edit<V>>)
    ensures Edited(m, first + second) == Edited(Edited(m, first), second)
  {
    if second == [] {
      assert first + second == first;
    } else {
      var n := |second| - 1;
      assert (first + second)[..|first + second| - 1] == first + second[..n];
      EditedTwice(m, first, second[..n]);
    }
  }

  function Erases<V>(keys: seq<int>): (r: seq<Edit<V>>)
    ensures |r| == |keys| && forall i | 0 <= i < |r| :: r[i] == Erase(keys[i])
  {
    seq(|keys|, i requires 0 <= i < |keys| => Erase(keys[i]))
  }

  function Puts<V>(m: map<int, V>, keys: seq<int>): (r: seq<Edit<V>>)
    requires Covers(m, keys)
    ensures |r| == |keys| && forall i | 0 <= i < |r| :: r[i] == Put(keys[i], m[keys[i]])
  {
    seq(|keys|, i requires 0 <= i < |keys| => Put(keys[i], m[keys[i]]))
  }

  lemma {:induction false} AfterErases<V>(m: map<int, V>, keys: seq<int>)
    ensures Edited(m, Erases(keys)) == map k | k in m && k !in keys :: m[k]
  {
    if keys != [] {
      var n := |keys| - 1;
      assert keys == keys[..n] + [keys[n]];
      assert Erases<V>(keys)[..n] == Erases<V>(keys[..n]);
      AfterErases(m, keys[..n]);
    }
  }

  lemma {:induction false} AfterPuts<V>(m: map<int, V>, source: map<int, V>, keys: seq<int>)
    requires Covers(source, keys)
    ensures var r := Edited(m, Puts(source, keys));
      && (forall k :: k in r <==> k in m || k in keys)
      && (forall k | k in r :: r[k] == if k in keys then source[k] else m[k])
  {
    if keys != [] {
      var n := |keys| - 1;
      assert keys == keys[..n] + [keys[n]];
      assert Puts(source, keys)[..n] == Puts(source, keys[..n]);
      AfterPuts(m, source, keys[..n]);
    }
  }

  function DiffEdits<V>(lhs: map<int, V>, rhs: map<int, V>, differ: (V, V) -> bool): seq<Edit<V>> {
    Erases(RemovedKeys(lhs, rhs)) + Puts(rhs, ChangedKeys(lhs, rhs, differ)) + Puts(rhs, RemovedKeys(rhs, lhs))
  }

  /** Applying the diff to the left map gives the right map, up to values that do not differ. */
  lemma {:induction false} DiffIsApplicable<V>(lhs: map<int, V>, rhs: map<int, V>, differ: (V, V) -> bool)
    ensures var patched := Edited(lhs, DiffEdits(lhs, rhs, differ));
      && patched.Keys == rhs.Keys
      && forall k | k in rhs :: patched[k] == if k in lhs && !differ(lhs[k], rhs[k]) then lhs[k] else rhs[k]
  {
    var removed, changed, added := RemovedKeys(lhs, rhs), ChangedKeys(lhs, rhs, differ), RemovedKeys(rhs, lhs);
    var kept := Edited(lhs, Erases(removed));
    var edited := Edited(kept, Puts(rhs, changed));
    EditedTwice(lhs, Erases(removed), Puts(rhs, changed));
    EditedTwice(lhs, Erases(removed) + Puts(rhs, changed), Puts(rhs, added));
    AfterErases(lhs, removed);
    AfterPuts(kept, rhs, changed);
    AfterPuts(edited, rhs, added);
    forall k
      ensures k in Edited(edited, Puts(rhs, added)) <==> k in rhs
    {
    }
  }
}
