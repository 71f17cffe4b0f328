/** The tree of JSON objects a configuration file holds, as a partial function from paths to leaves, and the
    paths that keys like `a::b::c` stand for. Objects are values here, as QJsonObject is. */
module ConfigTree {
  import opened Wrappers

  datatype Json =
    | Null | Bool(b: bool) | Number(n: real) | Text(s: string) | Array(items: seq<Json>) | Object(members: Members)

  type Members = map<string, Json>
  type Path = seq<string>
  type Content = map<string, Json>

  /** Values below which there is nothing: all but the objects with members. */
  predicate IsLeaf(v: Json) {
    v.Object? ==> v.members == map[]
  }

  // ----- keys and paths -----

  /** QString::split("::"): cut at every separator, leftmost first; empty parts are kept. */
  function Split(key: string): (parts: Path)
    ensures |parts| >= 1
  {
    if |key| < 2 then [key]
    else if key[..2] == "::" then [""] + Split(key[2..])
    else var rest := Split(key[1..]); [[key[0]] + rest[0]] + rest[1..]
  }

  function Join(parts: Path): string
    requires |parts| >= 1
  {
    if |parts| == 1 then parts[0] else parts[0] + "::" + Join(parts[1..])
  }

  lemma {:induction false} JoinOfLonger(c: char, rest: Path)
    requires |rest| >= 1
    ensures Join([[c] + rest[0]] + rest[1..]) == [c] + Join(rest)
  {
    var parts := [[c] + rest[0]] + rest[1..];
    assert parts[0] == [c] + rest[0] && parts[1..] == rest[1..];
    if |rest| > 1 {
      assert ([c] + rest[0]) + "::" + Join(rest[1..]) == [c] + (rest[0] + "::" + Join(rest[1..]));
    }
  }

  lemma {:induction false} JoinOfEmpty(rest: Path)
    requires |rest| >= 1
    ensures Join([""] + rest) == "::" + Join(rest)
  {
    assert ([""] + rest)[1..] == rest;
  }

  /** Cutting a key and joining the parts again gives the key; in particular Split is injective. */
  lemma {:induction false} JoinOfSplit(key: string)
    ensures Join(Split(key)) == key
  {
    if |key| < 2 {
      assert Split(key) == [key];
    } else if key[..2] == "::" {
      JoinOfSplit(key[2..]);
      JoinOfEmpty(Split(key[2..]));
      assert key == key[..2] + key[2..];
    } else {
      JoinOfSplit(key[1..]);
      JoinOfLonger(key[0], Split(key[1..]));
      assert key == [key[0]] + key[1..];
    }
  }

  /** A separator begins at `i`. */
  predicate SeparatorAt(s: string, i: nat) {
    i + 1 < |s| && s[i] == ':' && s[i + 1] == ':'
  }

  /** Every cut is made at the leftmost separator of what is left of the key. */
  lemma {:induction false} CutAtLeftmost(key: string, i: nat)
    requires SeparatorAt(key, i) && forall j | 0 <= j < i :: !SeparatorAt(key, j)
    ensures Split(key) == [key[..i]] + Split(key[i + 2..])
  {
    if i == 0 {
      assert key[..2] == "::";
    } else {
      assert key[..2] == [key[0], key[1]];
      assert !SeparatorAt(key, 0);
      assert forall j | 0 <= j < i - 1 :: SeparatorAt(key[1..], j) ==> SeparatorAt(key, j + 1);
      CutAtLeftmost(key[1..], i - 1);
      assert key[1..][i - 1 + 2..] == key[i + 2..];
      assert key[..i] == [key[0]] + key[1..][..i - 1];
    }
  }

  /** A key without a separator is one part. */
  lemma {:induction false} NotCut(key: string)
    requires forall j :: 0 <= j < |key| ==> !SeparatorAt(key, j)
    ensures Split(key) == [key]
  {
    if |key| >= 2 {
      assert !SeparatorAt(key, 0);
      assert key[..2] == [key[0], key[1]];
      assert forall j | 0 <= j < |key[1..]| :: SeparatorAt(key[1..], j) ==> SeparatorAt(key, j + 1);
      NotCut(key[1..]);
      assert key == [key[0]] + key[1..];
    }
  }

  lemma {:induction false} FirstSeparator(key: string, i: nat) returns (first: nat)
    requires SeparatorAt(key, i)
    ensures SeparatorAt(key, first) && forall j | 0 <= j < first :: !SeparatorAt(key, j)
  {
    first := i;
    if j :| 0 <= j < i && SeparatorAt(key, j) {
      first := FirstSeparator(key, j);
    }
  }

  /** No part has a separator in it. */
  lemma {:induction false} NoSeparatorLeft(key: string, part: string)
    requires part in Split(key)
    ensures forall j :: 0 <= j < |part| ==> !SeparatorAt(part, j)
    decreases |key|
  {
    if i :| 0 <= i < |key| && SeparatorAt(key, i) {
      var first := FirstSeparator(key, i);
      CutAtLeftmost(key, first);
      if part == key[..first] {
        assert forall j | 0 <= j < |part| :: SeparatorAt(part, j) ==> SeparatorAt(key, j);
      } else {
        NoSeparatorLeft(key[first + 2..], part);
      }
    } else {
      NotCut(key);
    }
  }

  /** Path components such as keys are made of. */
  predicate Plain(parts: Path) {
    |parts| >= 1 && forall i | 0 <= i < |parts| :: ':' !in parts[i]
  }

  /** A key made by putting separators between plain components is cut into just these. */
  lemma {:induction false} SplitOfJoin(parts: Path)
    requires Plain(parts)
    ensures Split(Join(parts)) == parts
  {
    var key := Join(parts);
    assert ':' !in parts[0];
    if |parts| == 1 {
      NotCut(key);
    } else {
      var n, rest := |parts[0]|, Join(parts[1..]);
      assert key == parts[0] + "::" + rest;
      assert forall j | 0 <= j < n :: key[j] == parts[0][j] && parts[0][j] in parts[0];
      assert SeparatorAt(key, n);
      CutAtLeftmost(key, n);
      assert key[..n] == parts[0] && key[n + 2..] == rest;
      SplitOfJoin(parts[1..]);
    }
  }

  /** What is left of a split key after dropping its first part is a split key again. */
  lemma {:induction false} SplitOfTail(key: string)
    requires |Split(key)| >= 2
    ensures Split(Join(Split(key)[1..])) == Split(key)[1..]
  {
    if key[..2] == "::" {
      assert Split(key)[1..] == Split(key[2..]);
      JoinOfSplit(key[2..]);
    } else {
      SplitOfTail(key[1..]);
      assert Split(key)[1..] == Split(key[1..])[1..];
    }
  }

  /** The name a path is given when it is read back: names are appended with "::", except that
      a name met while the prefix is still empty replaces it. */
  function FullName(prefix: string, path: Path): string
    requires |path| >= 1
    decreases |path|
  {
    var name := Qualified(prefix, path[0]);
    if |path| == 1 then name else FullName(name, path[1..])
  }

  function Qualified(prefix: string, name: string): string {
    if prefix == "" then name else prefix + "::" + name
  }

  /** Leading empty names are lost. */
  lemma {:induction false} EmptyHeadIsLost(path: Path)
    requires |path| >= 1
    ensures FullName("", [""] + path) == FullName("", path)
  {
    assert ([""] + path)[1..] == path;
  }

  lemma {:induction false} FullNameUnderPrefix(prefix: string, path: Path)
    requires |path| >= 1 && prefix != ""
    ensures FullName(prefix, path) == prefix + "::" + Join(path)
    decreases |path|
  {
    if |path| > 1 {
      FullNameUnderPrefix(Qualified(prefix, path[0]), path[1..]);
      assert prefix + "::" + path[0] + "::" + Join(path[1..]) == prefix + "::" + (path[0] + "::" + Join(path[1..]));
    }
  }

  lemma {:induction false} FullNameIsJoin(path: Path)
    requires |path| >= 1
    requires path[0] != "" || |path| == 1
    ensures FullName("", path) == Join(path)
  {
    if |path| > 1 {
      FullNameUnderPrefix(path[0], path[1..]);
    }
  }

  /** No key that is read back starts with an empty component followed by others:
      the leading empty names are lost. */
  lemma {:induction false} ReadNameHasHead(key: string)
    ensures var back := Split(FullName("", Split(key))); back[0] != "" || |back| == 1
    decreases |Split(key)|
  {
    var path := Split(key);
    if path[0] != "" || |path| == 1 {
      FullNameIsJoin(path);
      JoinOfSplit(key);
    } else {
      SplitOfTail(key);
      ReadNameHasHead(Join(path[1..]));
    }
  }

  // ----- the tree as a partial function from paths to leaves -----

  predicate IsPrefix(p: Path, q: Path) {
    |p| <= |q| && q[..|p|] == p
  }

  function Lookup(obj: Members, path: Path): Option<Json>
    requires |path| >= 1
    decreases |path|
  {
    if path[0] !in obj then None else At(obj[path[0]], path[1..])
  }

  /** The leaf found by going down `path` from a value. */
  function At(v: Json, path: Path): Option<Json>
    decreases |path|
  {
    if path == [] then (if IsLeaf(v) then Some(v) else None)
    else if v.Object? && path[0] in v.members then At(v.members[path[0]], path[1..])
    else None
  }

  lemma {:induction false} LeafBlocksDeeper(v: Json, p: Path, q: Path)
    requires |p| < |q| && IsPrefix(p, q) && At(v, p).Some?
    ensures At(v, q).None?
    decreases |p|
  {
    if p != [] {
      assert q[..|p|][0] == p[0];
      assert q[1..][..|p| - 1] == q[..|p|][1..];
      LeafBlocksDeeper(v.members[p[0]], p[1..], q[1..]);
    }
  }

  /** Every object with members has a leaf somewhere below it. */
  lemma {:induction false} HasLeaf(j: Json) returns (path: Path)
    requires !IsLeaf(j)
    ensures |path| >= 1 && At(j, path).Some?
  {
    var k :| k in j.members;
    if IsLeaf(j.members[k]) {
      path := [k];
    } else {
      var rest := HasLeaf(j.members[k]);
      path := [k] + rest;
      assert path[1..] == rest;
    }
  }

  /** Values are determined by the leaves found at their paths. */
  lemma {:induction false} ValuesAgree(a: Json, b: Json)
    requires forall q: Path :: At(a, q) == At(b, q)
    ensures a == b
    decreases a
  {
    assert At(a, []) == At(b, []);
    if !IsLeaf(a) {
      NoLeafEither(a, b);
      forall k | k in a.members
        ensures k in b.members && a.members[k] == b.members[k]
      {
        MembersAgree(a, b, k);
        ValuesAgree(a.members[k], b.members[k]);
      }
      forall k | k in b.members
        ensures k in a.members
      {
        MembersAgree(b, a, k);
      }
    }
  }

  lemma {:induction false} NoLeafEither(a: Json, b: Json)
    requires !IsLeaf(a) && forall q: Path :: At(a, q) == At(b, q)
    ensures !IsLeaf(b)
  {
    var path := HasLeaf(a);
    assert At(b, path).Some?;
  }

  lemma {:induction false} MembersAgree(a: Json, b: Json, k: string)
    requires !IsLeaf(a) && !IsLeaf(b) && k in a.members && forall q: Path :: At(a, q) == At(b, q)
    ensures k in b.members && forall q: Path :: At(a.members[k], q) == At(b.members[k], q)
  {
    var below: Path := [];
    if !IsLeaf(a.members[k]) {
      below := HasLeaf(a.members[k]);
    }
    assert ([k] + below)[1..] == below;
    assert At(a, [k] + below).Some? && At(b, [k] + below).Some?;
    forall q: Path
      ensures At(a.members[k], q) == At(b.members[k], q)
    {
      assert ([k] + q)[1..] == q;
      assert At(a, [k] + q) == At(b, [k] + q);
    }
  }

  /** A tree is determined by its leaves. */
  lemma {:induction false} TreesAgree(a: Members, b: Members)
    requires forall q: Path | |q| >= 1 :: Lookup(a, q) == Lookup(b, q)
    ensures a == b
  {
    forall q: Path
      ensures At(Object(a), q) == At(Object(b), q)
    {
      if q == [] {
        RootsAgree(a, b);
        RootsAgree(b, a);
      } else {
        assert At(Object(a), q) == Lookup(a, q) && At(Object(b), q) == Lookup(b, q);
      }
    }
    ValuesAgree(Object(a), Object(b));
  }

  lemma {:induction false} RootsAgree(a: Members, b: Members)
    requires forall q: Path | |q| >= 1 :: Lookup(a, q) == Lookup(b, q)
    ensures a != map[] ==> b != map[]
  {
    if a != map[] {
      var path := HasLeaf(Object(a));
      assert Lookup(a, path) == At(Object(a), path);
      assert Lookup(b, path).Some?;
    }
  }
}
