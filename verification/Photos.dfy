/**
 The photo record that the organising steps fill in (app/pipeline/state.py), and the small
 vocabulary they share.  A list of photos is an array whose entries the steps update in place.
 */
module Photos {
  import opened Wrappers

  /** "p<n>" names a folder of CLUSTERING or of the final result, "n<n>" one the agent opened. */
  datatype PlaceId = Folder(n: nat) | New(n: nat)

  datatype Issue = UnclearLocation | Blurry | Duplicated

  /** Where a photo's coordinates come from: its own GPS, another photo, nowhere. */
  datatype Origin = Exif | Inferred | Unknown

  datatype TimeStatus = Pending | Original | Corrected | NoTime

  datatype Spot = Spot(latitude: real, longitude: real)

  datatype Photo = Photo(
    id: int,
    hasGps: bool,
    takenAt: Option<int>,
    timeStatus: TimeStatus,
    embedded: bool,
    place: Option<PlaceId>,
    spot: Option<Spot>,
    origin: Origin,
    issue: Option<Issue>,
    duplicateOf: Option<int>)

  /** Cosine similarity of two photos' embeddings, by photo id. */
  type Similarity = (int, int) -> real

  ghost predicate DistinctIds(photos: seq<Photo>) {
    forall i, j | 0 <= i < j < |photos| :: photos[i].id != photos[j].id
  }

  ghost predicate SortedById(photos: seq<Photo>) {
    forall i, j | 0 <= i < j < |photos| :: photos[i].id < photos[j].id
  }

  predicate SpotInRange(s: Spot) {
    -90.0 <= s.latitude <= 90.0 && -180.0 <= s.longitude <= 180.0
  }

  /** What a step that fills in places never touches. */
  predicate SamePicture(p: Photo, q: Photo) {
    p.(place := q.place, spot := q.spot, origin := q.origin, issue := q.issue, duplicateOf := q.duplicateOf) == q
  }

  lemma SplicedById(sorted: seq<Photo>, i: nat, p: Photo)
    requires SortedById(sorted) && i <= |sorted|
    requires (forall k | 0 <= k < i :: sorted[k].id < p.id) && (i < |sorted| ==> p.id < sorted[i].id)
    ensures SortedById(sorted[..i] + [p] + sorted[i..])
  {
    var longer := sorted[..i] + [p] + sorted[i..];
    forall k | 0 <= k < |longer| ensures longer[k] == if k < i then sorted[k] else if k == i then p else sorted[k - 1] {}
  }

  /** One step of sorting photos by ID. */
  method InsertById(sorted: seq<Photo>, p: Photo) returns (longer: seq<Photo>)
    requires SortedById(sorted) && forall k | 0 <= k < |sorted| :: sorted[k].id != p.id
    ensures SortedById(longer) && multiset(longer) == multiset(sorted) + multiset{p}
    ensures forall q :: q in longer <==> q in sorted || q == p
  {
    hide SortedById;
    var i := 0;
    while i < |sorted| && sorted[i].id < p.id
      invariant i <= |sorted| && forall k | 0 <= k < i :: sorted[k].id < p.id
    {
      i := i + 1;
    }
    SplicedById(sorted, i, p);
    longer := sorted[..i] + [p] + sorted[i..];
    assert sorted == sorted[..i] + sorted[i..];
  }
}
