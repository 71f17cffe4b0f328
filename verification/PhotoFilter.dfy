/** Filtering of photos: the similar-photos filter, built from a removal, a sort and the in-place
    removal of unique elements. */
module PhotoFilter {
  import opened PhotoData
  import opened SortActions
  import opened ContainersUtils

  /** std::remove_if of the photos without a valid perceptual hash. */
  function WithHash(photos: seq<Photo>): (r: seq<Photo>)
    ensures forall p :: p in r <==> p in photos && p.row.phash.Valid?
  {
    if photos == [] then []
    else
      assert photos == [photos[0]] + photos[1..];
      (if photos[0].row.phash.Valid? then [photos[0]] else []) + WithHash(photos[1..])
  }

  lemma {:induction false} WithHashKeepsDistinct(photos: seq<Photo>)
    requires Distinct(photos)
    ensures Distinct(WithHash(photos))
  {
    if photos != [] {
      WithHashKeepsDistinct(photos[1..]);
      var rest := WithHash(photos[1..]);
      forall j | 0 <= j < |rest|
        ensures rest[j].id != photos[0].id
      {
        assert rest[j] in rest && rest[j] in photos[1..];
      }
    }
  }

  predicate SameHash(a: Photo, b: Photo) {
    a.row.phash == b.row.phash
  }

  /** In a range sorted by hash, photos with equal hashes are neighbours. */
  lemma {:induction false} TwinsInSortedRange(s: seq<Photo>, i: nat)
    requires i < |s| && forall k | 0 <= k < |s| :: s[k].row.phash.Valid?
    requires forall k, l | 0 <= k < l < |s| :: !KeyLess(HashKey(Ascending), s[l], s[k])
    ensures HasTwin(s, SameHash, i) <==> exists j :: 0 <= j < |s| && j != i && SameHash(s[i], s[j])
  {
    if j :| 0 <= j < |s| && j != i && SameHash(s[i], s[j]) {
      var k := if j < i then i - 1 else i + 1;
      if j < k < i {
        assert !KeyLess(HashKey(Ascending), s[k], s[j]);
      }
      if i < k < j {
        assert !KeyLess(HashKey(Ascending), s[j], s[k]);
      }
    }
    if HasTwin(s, SameHash, i) {
      if i > 0 && SameHash(s[i - 1], s[i]) {
        assert SameHash(s[i], s[i - 1]);
      } else {
        assert SameHash(s[i], s[i + 1]);
      }
    }
  }

  /** Another photo shares the valid hash of `p`. */
  ghost predicate HasSimilar(photos: seq<Photo>, p: Photo) {
    p in photos && p.row.phash.Valid? && exists q :: q in photos && q.id != p.id && SameHash(p, q)
  }

  /** FilterSimilarPhotos: exactly the photos whose valid hash is shared by another photo, each once. */
  method FilterSimilar(photos: seq<Photo>) returns (result: seq<Photo>)
    requires Distinct(photos)
    ensures Distinct(result)
    ensures forall p :: p in result <==> HasSimilar(photos, p)
  {
    var kept := WithHash(photos);
    WithHashKeepsDistinct(photos);
    var range := new Photo[|kept|](i requires 0 <= i < |kept| => kept[i]);
    assert range[..] == kept;
    UnstableSort(range, HashKey(Ascending));
    ghost var sorted := range[..];
    SameMembers(kept, sorted);
    DistinctPermutation(kept, sorted);
    forall k | 0 <= k < |sorted|
      ensures sorted[k].row.phash.Valid?
    {
      assert sorted[k] in kept;
    }
    var end := RemoveUnique(range, SameHash);
    result := range[..end];
    TwinsAreSimilar(photos, kept, sorted);
  }

  lemma {:induction false} TwinsAreSimilar(photos: seq<Photo>, kept: seq<Photo>, sorted: seq<Photo>)
    requires kept == WithHash(photos) && Distinct(sorted)
    requires forall p :: p in kept <==> p in sorted
    requires forall k | 0 <= k < |sorted| :: sorted[k].row.phash.Valid?
    requires forall k, l | 0 <= k < l < |sorted| :: !KeyLess(HashKey(Ascending), sorted[l], sorted[k])
    ensures Distinct(Twins(sorted, SameHash, |sorted|))
    ensures forall p :: p in Twins(sorted, SameHash, |sorted|) <==> HasSimilar(photos, p)
  {
    TwinsDistinct(sorted);
    forall p
      ensures p in Twins(sorted, SameHash, |sorted|) <==> HasSimilar(photos, p)
    {
      if p in Twins(sorted, SameHash, |sorted|) {
        var i := WhichTwin(sorted, p);
        TwinHasSimilar(photos, sorted, i);
      }
      if HasSimilar(photos, p) {
        var i := SimilarHasTwin(photos, sorted, p);
        TwinIsKept(sorted, i);
      }
    }
  }

  lemma {:induction false} TwinsDistinct(s: seq<Photo>)
    requires Distinct(s)
    ensures Distinct(Twins(s, SameHash, |s|))
  {
    var at := TwinsAreInOrder(s, SameHash, |s|);
  }

  lemma {:induction false} WhichTwin(s: seq<Photo>, p: Photo) returns (i: nat)
    requires p in Twins(s, SameHash, |s|)
    ensures i < |s| && s[i] == p && HasTwin(s, SameHash, i)
  {
    var twins := Twins(s, SameHash, |s|);
    var at := TwinsAreInOrder(s, SameHash, |s|);
    var k :| 0 <= k < |twins| && twins[k] == p;
    i := at[k];
  }

  lemma {:induction false} TwinIsKept(s: seq<Photo>, i: nat)
    requires i < |s| && HasTwin(s, SameHash, i)
    ensures s[i] in Twins(s, SameHash, |s|)
  {
    var at := TwinsAreInOrder(s, SameHash, |s|);
    assert i in at;
  }

  lemma {:induction false} TwinHasSimilar(photos: seq<Photo>, sorted: seq<Photo>, i: nat)
    requires Distinct(sorted) && forall q :: q in WithHash(photos) <==> q in sorted
    requires forall k | 0 <= k < |sorted| :: sorted[k].row.phash.Valid?
    requires forall k, l | 0 <= k < l < |sorted| :: !KeyLess(HashKey(Ascending), sorted[l], sorted[k])
    requires i < |sorted| && HasTwin(sorted, SameHash, i)
    ensures HasSimilar(photos, sorted[i])
  {
    TwinsInSortedRange(sorted, i);
    var j :| 0 <= j < |sorted| && j != i && SameHash(sorted[i], sorted[j]);
    assert sorted[i] in WithHash(photos) && sorted[j] in WithHash(photos);
    assert sorted[j] in photos && sorted[j].id != sorted[i].id;
  }

  lemma {:induction false} SimilarHasTwin(photos: seq<Photo>, sorted: seq<Photo>, p: Photo) returns (i: nat)
    requires HasSimilar(photos, p) && forall q :: q in WithHash(photos) <==> q in sorted
    requires forall k | 0 <= k < |sorted| :: sorted[k].row.phash.Valid?
    requires forall k, l | 0 <= k < l < |sorted| :: !KeyLess(HashKey(Ascending), sorted[l], sorted[k])
    ensures i < |sorted| && sorted[i] == p && HasTwin(sorted, SameHash, i)
  {
    var q :| q in photos && q.id != p.id && SameHash(p, q);
    assert p in sorted && q in sorted;
    i :| 0 <= i < |sorted| && sorted[i] == p;
    var j :| 0 <= j < |sorted| && sorted[j] == q;
    TwinsInSortedRange(sorted, i);
  }
}
