/** What `TripView` says about folders: which are in use, and where a photo put into one belongs. */
module TripPlaces {
  import opened Wrappers
  import opened Photos
  import opened Merging

  /** A folder the agent news, for a candidate found in a place search. */
  datatype NewPlace = NewPlace(name: string, spot: Spot, candidate: string)

  /** `places()`: some photo is in the folder, merges taken into account. */
  ghost predicate InUse(links: seq<Link>, photos: seq<Photo>, p: PlaceId) {
    exists k | 0 <= k < |photos| :: photos[k].place.Some? && Root(links, photos[k].place.value) == p
  }

  /** The folders in use, merges taken into account. */
  function UsedRoots(links: seq<Link>, photos: seq<Photo>): set<PlaceId> {
    set k | 0 <= k < |photos| && photos[k].place.Some? :: Root(links, photos[k].place.value)
  }

  /** Photo `a` is a GPS photo of folder `place`. */
  ghost predicate IsAnchor(links: seq<Link>, photos: seq<Photo>, place: PlaceId, a: int) {
    && 0 <= a < |photos| && photos[a].origin == Exif
    && photos[a].place.Some? && Root(links, photos[a].place.value) == place
  }

  /** `max` by similarity to photo `id`, ties to the smaller photo ID. */
  predicate AsGood(similarity: Similarity, p: Photo, q: Photo, id: int) {
    || similarity(p.id, id) > similarity(q.id, id)
    || (similarity(p.id, id) == similarity(q.id, id) && p.id <= q.id)
  }

  ghost predicate IsNearest(links: seq<Link>, photos: seq<Photo>, similarity: Similarity,
                            place: PlaceId, id: int, a: int) {
    && IsAnchor(links, photos, place, a)
    && forall b | IsAnchor(links, photos, place, b) :: AsGood(similarity, photos[a], photos[b], id)
  }

  ghost predicate HasAnchor(links: seq<Link>, photos: seq<Photo>, place: PlaceId) {
    exists a :: IsAnchor(links, photos, place, a)
  }

  predicate IsOpened(news: seq<NewPlace>, p: PlaceId) {
    p.New? && 1 <= p.n <= |news|
  }

  /** The coordinates photo `id` gets in folder `place`: of its most similar GPS photo, else the candidate's. */
  ghost predicate SpotFor(links: seq<Link>, photos: seq<Photo>, news: seq<NewPlace>, similarity: Similarity,
                          place: PlaceId, id: int, spot: Option<Spot>) {
    if HasAnchor(links, photos, place) then
      exists a :: IsNearest(links, photos, similarity, place, id, a) && photos[a].spot == spot
    else
      IsOpened(news, place) && spot == Some(news[place.n - 1].spot)
  }

  function Placed(p: Photo, place: PlaceId, spot: Option<Spot>): Photo {
    p.(place := Some(place), spot := spot, origin := Inferred, issue := None)
  }

  // ---------- Why no folder in use is ever without coordinates

  /** A folder of CLUSTERING with one of its own GPS photos, or a folder the agent opened. */
  ghost predicate Known(photos: seq<Photo>, news: seq<NewPlace>, p: PlaceId) {
    || IsOpened(news, p)
    || (p.Folder? && exists k | 0 <= k < |photos| :: photos[k].origin == Exif && photos[k].place == Some(p))
  }

  /**
   The state CLUSTERING hands over, and every later step of the agent keeps.  A photo with GPS
   is never a target; a photo in a folder has coordinates and no issue, any other none of these.
   */
  ghost predicate PhotoOk(p: Photo) {
    && (p.origin == Exif ==> p.hasGps)
    && (p.place.Some? ==> p.spot.Some? && p.origin != Unknown && p.issue == None)
    && (p.place.None? ==> p.issue == Some(UnclearLocation))
    && (p.spot.Some? ==> SpotInRange(p.spot.value))
    && p.duplicateOf == None
  }

  ghost predicate Grounded(photos: seq<Photo>, news: seq<NewPlace>, links: seq<Link>) {
    && (forall k | 0 <= k < |photos| :: PhotoOk(photos[k]))
    && (forall k | 0 <= k < |photos| && photos[k].place.Some? :: Known(photos, news, photos[k].place.value))
    && (forall i | 0 <= i < |links| :: Known(photos, news, links[i].child) && Known(photos, news, links[i].parent))
    && (forall i | 0 <= i < |news| :: SpotInRange(news[i].spot))
  }

  lemma {:induction false} RootIsKnown(photos: seq<Photo>, news: seq<NewPlace>, links: seq<Link>, p: PlaceId)
    requires Known(photos, news, p)
    requires forall i | 0 <= i < |links| :: Known(photos, news, links[i].parent)
    ensures Known(photos, news, Root(links, p))
    decreases |links|
  {
    if links != [] {
      RootIsKnown(photos, news, links[1..], if p == links[0].child then links[0].parent else p);
    }
  }

  /** Every root that can be reached from a known folder has a GPS photo or a candidate to take coordinates from. */
  lemma RootHasCoordinates(photos: seq<Photo>, news: seq<NewPlace>, links: seq<Link>, p: PlaceId)
    requires Chained(links) && Grounded(photos, news, links) && Known(photos, news, p)
    ensures HasAnchor(links, photos, Root(links, p)) || IsOpened(news, Root(links, p))
  {
    var r := Root(links, p);
    RootIsKnown(photos, news, links, p);
    if r.Folder? {
      var k :| 0 <= k < |photos| && photos[k].origin == Exif && photos[k].place == Some(r);
      RootIsLeft(links, p);
      RootOfLeft(links, r);
      assert IsAnchor(links, photos, r, k);
    }
  }

  lemma InUseIsKnown(photos: seq<Photo>, news: seq<NewPlace>, links: seq<Link>, p: PlaceId)
    requires Grounded(photos, news, links) && InUse(links, photos, p)
    ensures Known(photos, news, p)
  {
    var k :| 0 <= k < |photos| && photos[k].place.Some? && Root(links, photos[k].place.value) == p;
    RootIsKnown(photos, news, links, photos[k].place.value);
  }

  // ---------- Placing a photo that had no folder leaves all this as it was

  /** Photos already in a folder are untouched, and no GPS photo enters or leaves one. */
  ghost predicate Extends(before: seq<Photo>, after: seq<Photo>) {
    && |before| == |after|
    && (forall k | 0 <= k < |before| :: SamePicture(before[k], after[k]))
    && (forall k | 0 <= k < |before| && before[k].place.Some? :: after[k] == before[k])
    && (forall k | 0 <= k < |before| && before[k] != after[k] ::
          !before[k].hasGps && after[k].origin == Inferred && after[k].place.Some?)
  }

  lemma ExtendsJoins(a: seq<Photo>, b: seq<Photo>, c: seq<Photo>)
    requires Extends(a, b) && Extends(b, c)
    ensures Extends(a, c)
  {
    forall k | 0 <= k < |a| && a[k] != c[k]
      ensures !a[k].hasGps && c[k].origin == Inferred && c[k].place.Some?
    {
      assert SamePicture(a[k], b[k]);
      if b[k] == c[k] { assert a[k] != b[k]; }
    }
    forall k | 0 <= k < |a| ensures SamePicture(a[k], c[k]) {
      assert SamePicture(a[k], b[k]) && SamePicture(b[k], c[k]);
    }
  }

  lemma KnownStays(before: seq<Photo>, after: seq<Photo>, news: seq<NewPlace>, more: seq<NewPlace>, p: PlaceId)
    requires Extends(before, after) && news <= more && Known(before, news, p)
    ensures Known(after, more, p)
  {
    if !IsOpened(news, p) {
      var k :| 0 <= k < |before| && before[k].origin == Exif && before[k].place == Some(p);
      assert after[k] == before[k];
    }
  }

  lemma AnchorStays(links: seq<Link>, before: seq<Photo>, after: seq<Photo>, place: PlaceId, a: int)
    requires Extends(before, after) && forall k | 0 <= k < |before| :: PhotoOk(before[k])
    ensures IsAnchor(links, before, place, a) <==> IsAnchor(links, after, place, a)
    ensures IsAnchor(links, after, place, a) ==> after[a] == before[a]
  {
    if 0 <= a < |before| {
      assert PhotoOk(before[a]);
      if before[a] != after[a] {
        assert after[a].origin == Inferred && !before[a].hasGps;
      }
    }
  }

  lemma SpotStays(links: seq<Link>, before: seq<Photo>, after: seq<Photo>, news: seq<NewPlace>, more: seq<NewPlace>,
                  similarity: Similarity, place: PlaceId, id: int, spot: Option<Spot>)
    requires Extends(before, after) && forall k | 0 <= k < |before| :: PhotoOk(before[k])
    requires news <= more && SpotFor(links, before, news, similarity, place, id, spot)
    ensures SpotFor(links, after, more, similarity, place, id, spot)
  {
    forall a ensures IsAnchor(links, before, place, a) <==> IsAnchor(links, after, place, a)
      ensures IsAnchor(links, after, place, a) ==> after[a] == before[a]
    {
      AnchorStays(links, before, after, place, a);
    }
    if HasAnchor(links, before, place) {
      var a :| IsNearest(links, before, similarity, place, id, a) && before[a].spot == spot;
      assert IsNearest(links, after, similarity, place, id, a);
    }
  }

  lemma GroundedGrows(photos: seq<Photo>, news: seq<NewPlace>, more: seq<NewPlace>, links: seq<Link>)
    requires Grounded(photos, news, links) && news <= more
    requires forall i | |news| <= i < |more| :: SpotInRange(more[i].spot)
    ensures Grounded(photos, more, links)
  {
    forall p | Known(photos, news, p) ensures Known(photos, more, p) {
      KnownsGrow(photos, news, more, p);
    }
  }

  lemma KnownsGrow(photos: seq<Photo>, news: seq<NewPlace>, more: seq<NewPlace>, p: PlaceId)
    requires Known(photos, news, p) && news <= more
    ensures Known(photos, more, p)
  {}

  /** Putting a target into a known folder keeps the state in order. */
  lemma PlacingKeepsGrounded(photos: seq<Photo>, news: seq<NewPlace>, links: seq<Link>, k: nat,
                             place: PlaceId, spot: Option<Spot>)
    requires Grounded(photos, news, links) && k < |photos| && photos[k].place.None? && !photos[k].hasGps
    requires Known(photos, news, place) && spot.Some? && SpotInRange(spot.value)
    ensures Extends(photos, photos[k := Placed(photos[k], place, spot)])
    ensures Grounded(photos[k := Placed(photos[k], place, spot)], news, links)
  {
    var after := photos[k := Placed(photos[k], place, spot)];
    assert PhotoOk(photos[k]);
    assert Extends(photos, after);
    forall p | Known(photos, news, p) ensures Known(after, news, p) {
      KnownStays(photos, after, news, news, p);
    }
  }

  lemma SpotIsSome(links: seq<Link>, photos: seq<Photo>, news: seq<NewPlace>, similarity: Similarity,
                   place: PlaceId, id: int, spot: Option<Spot>)
    requires Grounded(photos, news, links) && SpotFor(links, photos, news, similarity, place, id, spot)
    ensures spot.Some? && SpotInRange(spot.value)
  {
    if HasAnchor(links, photos, place) {
      var a :| IsNearest(links, photos, similarity, place, id, a) && photos[a].spot == spot;
      assert PhotoOk(photos[a]);
    }
  }
}
