/** Listing photos: filter, then sort by an action. */
module PhotoQueries {
  import opened PhotoData
  import opened SortActions
  import opened PhotoFilter
  import DbModule = Database
  import Utils = ContainersUtils

  /** The filters that look at perceptual hashes, and the empty one. */
  datatype Filter = EmptyFilter | SimilarPhotos | PhotosWithPHash

  /** The stored photos in id order. */
  function StoredPhotos(db: DbModule.DB): (r: seq<Photo>)
    ensures |r| == |Utils.InOrder(db.photos.Keys)|
    ensures forall i | 0 <= i < |r| :: r[i].id == Utils.InOrder(db.photos.Keys)[i] && IsStored(db, r[i])
  {
    var ids := Utils.InOrder(db.photos.Keys);
    assert forall i | 0 <= i < |ids| :: ids[i] in ids;
    seq(|ids|, i requires 0 <= i < |ids| => Photo(ids[i], db.photos[ids[i]]))
  }

  predicate IsStored(db: DbModule.DB, p: Photo) {
    p.id in db.photos && p.row == db.photos[p.id]
  }

  lemma {:induction false} StoredPhotosAreAll(db: DbModule.DB)
    ensures Distinct(StoredPhotos(db))
    ensures forall p: Photo :: p in StoredPhotos(db) <==> IsStored(db, p)
  {
    var ids := Utils.InOrder(db.photos.Keys);
    Utils.InOrderAscends(db.photos.Keys);
    forall p: Photo | IsStored(db, p)
      ensures p in StoredPhotos(db)
    {
      assert p.id in ids;
      var i :| 0 <= i < |ids| && ids[i] == p.id;
      assert StoredPhotos(db)[i] == p;
    }
  }

  ghost predicate Passes(filter: Filter, photos: seq<Photo>, p: Photo) {
    match filter
    case EmptyFilter => p in photos
    case SimilarPhotos => HasSimilar(photos, p)
    case PhotosWithPHash => p in photos && p.row.phash.Valid?
  }

  /** The photos that pass, where the filter leaves them in the order of their ids: all filters but the one for
      similar photos, which sorts. */
  function InIdOrder(filter: Filter, photos: seq<Photo>): seq<Photo> {
    if filter == PhotosWithPHash then WithHash(photos) else photos
  }

  method GetPhotos(db: DbModule.DB, filter: Filter) returns (data: seq<Photo>)
    ensures Distinct(data)
    ensures forall p: Photo :: p in data <==> Passes(filter, StoredPhotos(db), p)
    ensures filter != SimilarPhotos ==> data == InIdOrder(filter, StoredPhotos(db))
  {
    data := StoredPhotos(db);
    StoredPhotosAreAll(db);
    match filter {
      case EmptyFilter =>
      case SimilarPhotos =>
        data := FilterSimilar(data);
      case PhotosWithPHash =>
        WithHashKeepsDistinct(data);
        data := WithHash(data);
    }
  }

  /** Exactly the stored photos that pass the filter, each once, in the order of the action, ties in the order
      of their ids unless the filter has sorted them by hash. */
  method OnPhotos(db: DbModule.DB, filter: Filter, action: Action) returns (sorted: seq<Photo>)
    ensures Distinct(sorted)
    ensures forall p: Photo :: p in sorted <==> IsStored(db, p) && Passes(filter, StoredPhotos(db), p)
    ensures forall i, j | 0 <= i < j < |sorted| :: MayPrecede(action, sorted[i], sorted[j])
    ensures filter != SimilarPhotos ==>
      StablySorted(Keys(action), InIdOrder(filter, StoredPhotos(db)), sorted)
  {
    var data := GetPhotos(db, filter);
    var range := new Photo[|data|](i requires 0 <= i < |data| => data[i]);
    assert range[..] == data;
    SortActions.OnPhotos(range, action);
    sorted := range[..];
    SameMembers(data, sorted);
    DistinctPermutation(data, sorted);
    SortedMeans(action, data, sorted);
    StoredPhotosAreAll(db);
  }
}
