/** The accumulator that holds notifications back until a transaction is committed. */
module Notifications {

  datatype Signal = PhotosAdded(ids: seq<int>) | PhotosModified(modified: set<int>) | PhotosRemoved(removed: seq<int>)

  /** What has been accumulated. */
  datatype Pending = Pending(added: seq<int>, modified: set<int>, removed: seq<int>)

  const NOTHING := Pending([], {}, [])

  /** std::erase: every occurrence is removed. */
  function Erased(s: seq<int>, x: int): (r: seq<int>)
    ensures forall y :: y in r <==> y in s && y != x
  {
    if s == [] then []
    else
      assert s == [s[0]] + s[1..];
      (if s[0] == x then [] else [s[0]]) + Erased(s[1..], x)
  }

  function ErasedAll(s: seq<int>, xs: seq<int>): (r: seq<int>)
    ensures forall y :: y in r <==> y in s && y !in xs
  {
    if xs == [] then s
    else
      assert xs == xs[..|xs| - 1] + [xs[|xs| - 1]];
      Erased(ErasedAll(s, xs[..|xs| - 1]), xs[|xs| - 1])
  }

  /** Erasing keeps the others in their order: what is erased from a list is erased from its parts. */
  lemma {:induction false} ErasedInParts(a: seq<int>, b: seq<int>, x: int)
    ensures Erased(a + b, x) == Erased(a, x) + Erased(b, x)
  {
    if a == [] {
      assert a + b == b;
    } else {
      assert (a + b)[1..] == a[1..] + b;
      ErasedInParts(a[1..], b, x);
    }
  }

  lemma {:induction false} AllErasedInParts(a: seq<int>, b: seq<int>, xs: seq<int>)
    ensures ErasedAll(a + b, xs) == ErasedAll(a, xs) + ErasedAll(b, xs)
  {
    if xs != [] {
      var front, x := xs[..|xs| - 1], xs[|xs| - 1];
      AllErasedInParts(a, b, front);
      ErasedInParts(ErasedAll(a, front), ErasedAll(b, front), x);
    }
  }

  lemma {:induction false} AllErasedFromOne(y: int, xs: seq<int>)
    ensures ErasedAll([y], xs) == if y in xs then [] else [y]
  {
    if xs != [] {
      var front, x := xs[..|xs| - 1], xs[|xs| - 1];
      assert xs == front + [x];
      AllErasedFromOne(y, front);
      NothingToErase(x);
    }
  }

  lemma {:induction false} NothingToErase(x: int)
    ensures Erased([], x) == [] && forall y :: Erased([y], x) == if y == x then [] else [y]
  {
  }

  /** What is pending once removals have taken precedence. */
  function Raised(p: Pending): Pending {
    Pending(ErasedAll(p.added, p.removed), p.modified - (set x | x in p.removed), p.removed)
  }

  /** The signals of a commit: at most one of each kind, none of them empty. */
  function Fired(p: Pending): seq<Signal> {
    (if Raised(p).added != [] then [PhotosAdded(Raised(p).added)] else []) +
    (if Raised(p).modified != {} then [PhotosModified(Raised(p).modified)] else []) +
    (if Raised(p).removed != [] then [PhotosRemoved(Raised(p).removed)] else [])
  }

  class NotificationsAccumulator {
    var photosAdded: seq<int>
    var photosModified: set<int>
    var photosRemoved: seq<int>
    /** All signals emitted so far. */
    ghost var emitted: seq<Signal>

    ghost function View(): Pending
      reads this
    {
      Pending(photosAdded, photosModified, photosRemoved)
    }

    constructor ()
      ensures View() == NOTHING && emitted == []
    {
      photosAdded, photosModified, photosRemoved, emitted := [], {}, [], [];
    }

    method AddPhotos(photos: seq<int>)
      modifies this
      ensures View() == old(View()).(added := old(photosAdded) + photos) && emitted == old(emitted)
    {
      photosAdded := photosAdded + photos;
    }

    method ModifyPhotos(photos: set<int>)
      modifies this
      ensures View() == old(View()).(modified := old(photosModified) + photos) && emitted == old(emitted)
    {
      photosModified := photosModified + photos;
    }

    method RemovePhotos(photos: seq<int>)
      modifies this
      ensures View() == old(View()).(removed := old(photosRemoved) + photos) && emitted == old(emitted)
    {
      photosRemoved := photosRemoved + photos;
    }

    method FireChanges()
      modifies this
      ensures View() == NOTHING
      ensures emitted == old(emitted) + Fired(old(View()))
    {
      RaiseDeletion();
      if photosAdded != [] {
        emitted := emitted + [PhotosAdded(photosAdded)];
      }
      if photosModified != {} {
        emitted := emitted + [PhotosModified(photosModified)];
      }
      if photosRemoved != [] {
        emitted := emitted + [PhotosRemoved(photosRemoved)];
      }
      ClearNotifications();
    }

    method IgnoreChanges()
      modifies this
      ensures View() == NOTHING && emitted == old(emitted)
    {
      ClearNotifications();
    }

    method ClearNotifications()
      modifies this
      ensures View() == NOTHING && emitted == old(emitted)
    {
      photosAdded, photosModified, photosRemoved := [], {}, [];
    }

    method RaiseDeletion()
      modifies this
      ensures View() == Raised(old(View())) && emitted == old(emitted)
    {
      for i := 0 to |photosRemoved|
        invariant photosRemoved == old(photosRemoved) && emitted == old(emitted)
        invariant photosAdded == ErasedAll(old(photosAdded), photosRemoved[..i])
        invariant photosModified == old(photosModified) - (set x | x in photosRemoved[..i])
      {
        var id := photosRemoved[i];
        assert photosRemoved[..i + 1] == photosRemoved[..i] + [id];
        photosAdded := Erased(photosAdded, id);
        photosModified := photosModified - {id};
      }
      assert photosRemoved[..|photosRemoved|] == photosRemoved;
    }
  }

  /** Deletion wins: a commit names no removed photo as added or modified, and every other photo that
      was reported is named. */
  lemma {:induction false} DeletionWins(p: Pending, id: int)
    ensures (exists s :: s in Fired(p) && s.PhotosAdded? && id in s.ids) <==> id in p.added && id !in p.removed
    ensures (exists s :: s in Fired(p) && s.PhotosModified? && id in s.modified) <==>
      id in p.modified && id !in p.removed
    ensures (exists s :: s in Fired(p) && s.PhotosRemoved? && id in s.removed) <==> id in p.removed
  {
    NamedAsAdded(p, id);
    NamedAsModified(p, id);
    NamedAsRemoved(p, id);
  }

  lemma {:induction false} NamedAsAdded(p: Pending, id: int)
    ensures (exists s :: s in Fired(p) && s.PhotosAdded? && id in s.ids) <==> id in p.added && id !in p.removed
  {
    if id in p.added && id !in p.removed {
      assert PhotosAdded(Raised(p).added) in Fired(p);
    }
  }

  lemma {:induction false} NamedAsModified(p: Pending, id: int)
    ensures (exists s :: s in Fired(p) && s.PhotosModified? && id in s.modified) <==>
      id in p.modified && id !in p.removed
  {
    if id in p.modified && id !in p.removed {
      var first := if Raised(p).added != [] then [PhotosAdded(Raised(p).added)] else [];
      assert id in Raised(p).modified;
      assert Fired(p)[|first|] == PhotosModified(Raised(p).modified);
    }
  }

  lemma {:induction false} NamedAsRemoved(p: Pending, id: int)
    ensures (exists s :: s in Fired(p) && s.PhotosRemoved? && id in s.removed) <==> id in p.removed
  {
    if id in p.removed {
      assert PhotosRemoved(Raised(p).removed) in Fired(p);
    }
  }
}
