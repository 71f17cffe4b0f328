/** The order of strings: what sorting by a tag, std::map and QJsonObject put their text in. */
module Strings {
  predicate StringLess(a: string, b: string) {
    if a == [] || b == [] then a == [] && b != []
    else a[0] < b[0] || (a[0] == b[0] && StringLess(a[1..], b[1..]))
  }

  lemma {:induction false} StringOrder(a: string, b: string, c: string)
    ensures StringLess(a, b) ==> !StringLess(b, a)
    ensures StringLess(a, c) ==> StringLess(a, b) || StringLess(b, c)
  {
    if a != [] && b != [] {
      StringOrder(a[1..], b[1..], if c == [] then c else c[1..]);
    }
  }

  lemma {:induction false} StringTotal(a: string, b: string)
    ensures a == b || StringLess(a, b) || StringLess(b, a)
  {
    if a != [] && b != [] {
      StringTotal(a[1..], b[1..]);
      assert a == [a[0]] + a[1..] && b == [b[0]] + b[1..];
    }
  }

  /** A string comes before its extensions. */
  lemma {:induction false} ExtensionIsGreater(a: string, more: string)
    requires more != []
    ensures StringLess(a, a + more)
  {
    if a == [] {
      assert a + more == more;
    } else {
      ExtensionIsGreater(a[1..], more);
      assert (a + more)[1..] == a[1..] + more;
    }
  }

  /** Characters are compared from the front: the first difference decides, and a string that ends there is less. */
  lemma {:induction false} FirstDifferenceDecides(a: string, b: string)
    ensures StringLess(a, b) <==>
      exists n: nat :: n <= |a| && n < |b| && a[..n] == b[..n] && (n == |a| || a[n] < b[n])
  {
    if a != [] && b != [] && a[0] == b[0] {
      FirstDifferenceDecides(a[1..], b[1..]);
      if StringLess(a, b) {
        var m: nat :| m <= |a[1..]| && m < |b[1..]| && a[1..][..m] == b[1..][..m]
          && (m == |a[1..]| || a[1..][m] < b[1..][m]);
        SameFront(a, b, m + 1);
      }
      if n: nat :| n <= |a| && n < |b| && a[..n] == b[..n] && (n == |a| || a[n] < b[n]) {
        SameFront(a, b, n);
      }
    } else if a != [] && b != [] {
      assert a[..0] == b[..0];
      assert forall n: nat | 0 < n <= |a| && n < |b| :: a[..n][0] == a[0] && b[..n][0] == b[0];
    } else if b != [] {
      assert a[..0] == b[..0];
    }
  }

  lemma {:induction false} SameFront(a: string, b: string, n: nat)
    requires a != [] && b != [] && a[0] == b[0] && 0 < n <= |a| && n <= |b|
    ensures a[..n] == b[..n] <==> a[1..][..n - 1] == b[1..][..n - 1]
  {
    assert a[..n] == [a[0]] + a[1..][..n - 1] && b[..n] == [b[0]] + b[1..][..n - 1];
  }

  // ----- the elements of a set in order -----

  predicate IsLeast(s: set<string>, k: string) {
    k in s && forall x | x in s && x != k :: StringLess(k, x)
  }

  lemma {:induction false} LeastOf(s: set<string>) returns (k: string)
    requires s != {}
    ensures IsLeast(s, k)
    decreases |s|
  {
    k :| k in s;
    if s != {k} {
      var rest := s - {k};
      assert s == rest + {k};
      var least := LeastOf(rest);
      StringTotal(k, least);
      if StringLess(k, least) {
        forall x | x in rest && x != least
          ensures StringLess(k, x)
        {
          StringOrder(k, x, least);
          StringOrder(least, x, k);
        }
      } else {
        k := least;
      }
    }
  }

  lemma {:induction false} LeastExists(s: set<string>)
    requires s != {}
    ensures exists k :: IsLeast(s, k)
    ensures forall a, b | IsLeast(s, a) && IsLeast(s, b) :: a == b
  {
    var k := LeastOf(s);
    forall a, b | IsLeast(s, a) && IsLeast(s, b)
      ensures a == b
    {
      StringOrder(a, b, a);
    }
  }

  function Least(s: set<string>): (k: string)
    requires s != {}
    ensures IsLeast(s, k)
  {
    LeastExists(s);
    var k :| k in s && IsLeast(s, k);
    k
  }

  function InOrder(s: set<string>): (r: seq<string>)
    ensures forall k :: k in r <==> k in s
    decreases |s|
  {
    if s == {} then []
    else
      var k := Least(s);
      [k] + InOrder(s - {k})
  }

  ghost predicate StringsAscend(s: seq<string>) {
    forall i, j | 0 <= i < j < |s| :: StringLess(s[i], s[j])
  }

  lemma {:induction false} InOrderAscends(s: set<string>)
    ensures StringsAscend(InOrder(s))
    decreases |s|
  {
    if s != {} {
      var k := Least(s);
      var rest := InOrder(s - {k});
      InOrderAscends(s - {k});
      assert forall j | 0 <= j < |rest| :: rest[j] in rest;
    }
  }
}
