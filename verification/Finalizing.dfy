/**
 The checks and the partition of `finalize_photos` (app/pipeline/steps/finalizing.py), and why
 what filtering and releasing hand over passes them.
 */
module Finalizing {
  import opened Wrappers
  import opened Photos
  import opened Filtering
  import opened Texts

  /** Spherical mean of a folder's coordinates, and its representative photo; either may fail. */
  datatype Chooser = Chooser(center: seq<Option<Spot>> -> Option<Spot>, pick: seq<int> -> Option<int>)

  datatype PlaceEntry = PlaceEntry(
    place: PlaceId,
    center: Spot,
    first: Option<int>,
    last: Option<int>,
    representative: int,
    attachments: seq<Photo>)

  /** Places in the order of their IDs as text, photos that stay out by ID, and the score of each photo. */
  datatype ProcessResult = ProcessResult(
    places: seq<PlaceEntry>,
    unclassified: seq<Photo>,
    evaluations: map<int, Option<int>>)

  // ---------- Scores

  /** Python's `round`: to the nearest integer, halves to the even one. */
  function Round(x: real): int {
    var f := x.Floor;
    var d := x - f as real;
    if d < 0.5 || (d == 0.5 && f % 2 == 0) then f else f + 1
  }

  /** `quality_score`. */
  function Score(variance: real): int
    requires variance >= 0.0
  {
    Round(100.0 * (variance / (variance + 100.0)))
  }

  lemma RoundGrows(x: real, y: real)
    requires x <= y
    ensures Round(x) <= Round(y)
  {}

  lemma Saturates(v: real, w: real)
    requires 0.0 <= v <= w
    ensures 0.0 <= 100.0 * (v / (v + 100.0)) <= 100.0 * (w / (w + 100.0)) < 100.0
  {
    var x, y := v / (v + 100.0), w / (w + 100.0);
    assert x * (v + 100.0) == v && y * (w + 100.0) == w;
    assert 1.0 - x == 100.0 / (v + 100.0) && 1.0 - y == 100.0 / (w + 100.0);
    SmallerShare(v + 100.0, w + 100.0);
  }

  lemma SmallerShare(a: real, b: real)
    requires 0.0 < a <= b
    ensures 0.0 < 100.0 / b <= 100.0 / a
  {
    assert 100.0 / a - 100.0 / b == 100.0 * (b - a) / (a * b);
  }

  /** Scores lie between 0 and 100 and grow with the variance. */
  lemma ScoresGrow(v: real, w: real)
    requires 0.0 <= v <= w
    ensures 0 <= Score(v) <= Score(w) <= 100
  {
    Saturates(v, w);
    RoundGrows(0.0, 100.0 * (v / (v + 100.0)));
    RoundGrows(100.0 * (v / (v + 100.0)), 100.0 * (w / (w + 100.0)));
    RoundGrows(100.0 * (w / (w + 100.0)), 100.0);
  }

  lemma NearestWhole(x: real)
    ensures -0.5 <= Round(x) as real - x <= 0.5
    ensures Round(x) as real - x == 0.5 || Round(x) as real - x == -0.5 ==> Round(x) % 2 == 0
  {}

  /** The whole number nearest to 100 v / (v + 100), of two the even one: 0 for no variance, 50 at 100. */
  lemma ScoreIs(v: real)
    requires v >= 0.0
    ensures var x := 100.0 * v / (v + 100.0);
            && -0.5 <= Score(v) as real - x <= 0.5
            && (Score(v) as real - x == 0.5 || Score(v) as real - x == -0.5 ==> Score(v) % 2 == 0)
    ensures Score(0.0) == 0 && Score(100.0) == 50
  {
    NearestWhole(100.0 * (v / (v + 100.0)));
    assert 100.0 * (v / (v + 100.0)) == 100.0 * v / (v + 100.0);
  }

  /** A photo whose location stayed unclear has no score. */
  function Evaluation(p: Photo, variances: map<int, real>): Option<int>
    requires Scorable(p, variances)
  {
    if p.issue == Some(UnclearLocation) then Option.None else Some(Score(variances[p.id]))
  }

  // ---------- Place IDs as text

  function Text(p: PlaceId): string {
    (if p.Folder? then "p" else "n") + Digits(p.n)
  }

  predicate IdBefore(p: PlaceId, q: PlaceId) {
    TextBefore(Text(p), Text(q))
  }

  lemma IdsAreOrdered(p: PlaceId, q: PlaceId)
    ensures !(IdBefore(p, q) && IdBefore(q, p))
    ensures p == q || IdBefore(p, q) || IdBefore(q, p)
  {
    TextIsOrdered(Text(p), Text(q));
    if Text(p) == Text(q) {
      assert Text(p)[0] == Text(q)[0];
      assert Text(p)[1..] == Digits(p.n) && Text(q)[1..] == Digits(q.n);
      DigitsOnce(p.n, q.n);
    }
  }

  ghost predicate ById(order: seq<PlaceId>) {
    forall i, j | 0 <= i < j < |order| :: IdBefore(order[i], order[j])
  }

  // ---------- The checks

  /** `_validate`. */
  predicate PhotoAcceptable(p: Photo) {
    && TimeDecided(p)
    && (p.spot.Some? ==> SpotInRange(p.spot.value))
    && (if p.issue == Some(UnclearLocation) then p.place.None?
        else if p.place.None? then p.issue.Some?
        else p.spot.Some? && p.origin != Unknown)
    && (p.issue != Some(Duplicated) ==> p.duplicateOf == Option.None)
  }

  predicate Scorable(p: Photo, variances: map<int, real>) {
    p.issue != Some(UnclearLocation) ==> p.id in variances && variances[p.id] >= 0.0
  }

  /** A duplicate's original is a kept photo of the same folder. */
  ghost predicate DuplicateOk(photos: seq<Photo>, p: Photo) {
    p.issue == Some(Duplicated) ==>
      exists o :: 0 <= o < |photos| && p.duplicateOf == Some(photos[o].id)
                  && photos[o].place == p.place && photos[o].issue == KeptIssue(p.place)
  }

  // ---------- Folders

  ghost predicate InSequence(list: seq<Photo>) {
    forall i, j | 0 <= i < j < |list| :: Precedes(list[i], list[j])
  }

  /** The folder's photos, or only those without an issue, in order. */
  ghost predicate Lists(photos: seq<Photo>, place: PlaceId, shown: bool, list: seq<Photo>) {
    && InSequence(list)
    && forall p :: p in list <==> p in photos && p.place == Some(place) && (shown ==> p.issue == Option.None)
  }

  function Spots(list: seq<Photo>): seq<Option<Spot>> {
    seq(|list|, i requires 0 <= i < |list| => list[i].spot)
  }

  function Ids(list: seq<Photo>): (ids: seq<int>)
    ensures |ids| == |list| && forall i | 0 <= i < |list| :: ids[i] == list[i].id
  {
    seq(|list|, i requires 0 <= i < |list| => list[i].id)
  }

  /** The folder can be shown: it has a photo without an issue, a centre, and a representative among those photos. */
  predicate Showable(chooser: Chooser, members: seq<Photo>, candidates: seq<Photo>) {
    && candidates != []
    && chooser.center(Spots(members)).Some?
    && chooser.pick(Ids(candidates)).Some? && chooser.pick(Ids(candidates)).value in Ids(candidates)
  }

  /** Centres and representatives can always be computed. */
  ghost predicate Capable(chooser: Chooser) {
    forall members: seq<Photo>, candidates: seq<Photo> | candidates != [] :: Showable(chooser, members, candidates)
  }

  ghost predicate FolderOk(photos: seq<Photo>, chooser: Chooser, place: PlaceId) {
    exists members, candidates ::
      && Lists(photos, place, false, members) && Lists(photos, place, true, candidates)
      && Showable(chooser, members, candidates)
  }

  ghost predicate Finalizable(photos: seq<Photo>, variances: map<int, real>, chooser: Chooser) {
    && DistinctIds(photos)
    && (forall p | p in photos :: PhotoAcceptable(p) && Scorable(p, variances) && DuplicateOk(photos, p))
    && (forall p | p in photos && p.place.Some? :: FolderOk(photos, chooser, p.place.value))
  }

  // ---------- The result

  ghost predicate Earliest(list: seq<Photo>, t: Option<int>) {
    if t.None? then forall p | p in list :: p.takenAt.None?
    else (exists p :: p in list && p.takenAt == t)
         && forall p | p in list && p.takenAt.Some? :: t.value <= p.takenAt.value
  }

  ghost predicate Latest(list: seq<Photo>, t: Option<int>) {
    if t.None? then forall p | p in list :: p.takenAt.None?
    else (exists p :: p in list && p.takenAt == t)
         && forall p | p in list && p.takenAt.Some? :: p.takenAt.value <= t.value
  }

  ghost predicate EntryOk(photos: seq<Photo>, chooser: Chooser, e: PlaceEntry) {
    var place := e.place;
    && Lists(photos, place, true, e.attachments) && e.attachments != []
    && (exists members :: Lists(photos, place, false, members) && chooser.center(Spots(members)) == Some(e.center))
    && chooser.pick(Ids(e.attachments)) == Some(e.representative) && e.representative in Ids(e.attachments)
    && Earliest(e.attachments, e.first) && Latest(e.attachments, e.last)
  }

  function PlaceIds(places: seq<PlaceEntry>): (ids: seq<PlaceId>)
    ensures |ids| == |places| && forall i | 0 <= i < |ids| :: ids[i] == places[i].place
  {
    seq(|places|, i requires 0 <= i < |places| => places[i].place)
  }

  ghost predicate EvaluationsOk(photos: seq<Photo>, variances: map<int, real>, evaluations: map<int, Option<int>>) {
    && (forall id :: id in evaluations <==> exists p :: p in photos && p.id == id)
    && (forall p | p in photos :: Scorable(p, variances) && p.id in evaluations && evaluations[p.id] == Evaluation(p, variances))
  }

  ghost predicate ResultOk(photos: seq<Photo>, variances: map<int, real>, chooser: Chooser, r: ProcessResult) {
    && ById(PlaceIds(r.places))
    && (forall place :: place in PlaceIds(r.places) <==> exists p :: p in photos && p.place == Some(place))
    && (forall e | e in r.places :: EntryOk(photos, chooser, e))
    && SortedById(r.unclassified)
    && (forall p :: p in r.unclassified <==> p in photos && p.issue.Some?)
    && EvaluationsOk(photos, variances, r.evaluations)
  }

  /** The attachments of every place come known times first, earlier before later, then by ID. */
  lemma AttachmentsInOrder(photos: seq<Photo>, variances: map<int, real>, chooser: Chooser, r: ProcessResult, n: nat,
                           i: nat, j: nat)
    requires ResultOk(photos, variances, chooser, r) && n < |r.places| && i < j < |r.places[n].attachments|
    ensures TakenFirst(r.places[n].attachments[i], r.places[n].attachments[j])
  {
    assert r.places[n] in r.places && EntryOk(photos, chooser, r.places[n]);
    PrecedesIsTakenFirst(r.places[n].attachments[i], r.places[n].attachments[j]);
  }

  /** The places come in the order of their IDs as text: a letter and a number in decimal. */
  lemma PlacesInOrder(photos: seq<Photo>, variances: map<int, real>, chooser: Chooser, r: ProcessResult, m: nat, n: nat)
    requires ResultOk(photos, variances, chooser, r) && m < n < |r.places|
    ensures ComesBefore(Text(r.places[m].place), Text(r.places[n].place))
    ensures var p := r.places[m].place;
            Text(p)[0] == (if p.Folder? then 'p' else 'n') && Reading(Text(p)[1..]) == p.n
  {
    hide EntryOk;
    assert IdBefore(PlaceIds(r.places)[m], PlaceIds(r.places)[n]);
    TextBeforeIs(Text(r.places[m].place), Text(r.places[n].place));
    DigitsRead(r.places[m].place.n);
    assert Text(r.places[m].place)[1..] == Digits(r.places[m].place.n);
  }

  /** Every photo has the score of its own variance, unless its location stayed unclear. */
  lemma OwnScore(photos: seq<Photo>, variances: map<int, real>, evaluations: map<int, Option<int>>, p: Photo)
    requires EvaluationsOk(photos, variances, evaluations) && p in photos
    ensures p.id in evaluations && (evaluations[p.id].None? <==> p.issue == Some(UnclearLocation))
    ensures evaluations[p.id].Some? ==>
              && p.id in variances && variances[p.id] >= 0.0
              && var x := 100.0 * variances[p.id] / (variances[p.id] + 100.0);
                 -0.5 <= evaluations[p.id].value as real - x <= 0.5
  {
    hide Score;
    if p.issue != Some(UnclearLocation) { ScoreIs(variances[p.id]); }
  }

  // ---------- One list per folder

  lemma PrecedesOnce(p: Photo, q: Photo)
    requires Precedes(p, q)
    ensures !Precedes(q, p)
  {}

  lemma SomeElement(list: seq<Photo>)
    ensures list == [] || exists p :: p in list
  {
    if list != [] { assert list[0] in list; }
  }

  lemma {:induction false} OneSequence(a: seq<Photo>, b: seq<Photo>)
    requires InSequence(a) && InSequence(b) && forall p :: p in a <==> p in b
    ensures a == b
    decreases |a|
  {
    if a == [] {
      SomeElement(b);
    } else {
      assert a[0] in b && b != [] && b[0] in a;
      assert a[0] == b[0] by {
        var i :| 0 <= i < |b| && b[i] == a[0];
        var j :| 0 <= j < |a| && a[j] == b[0];
        if a[0] != b[0] { PrecedesOnce(a[0], b[0]); }
      }
      forall p ensures p in a[1..] <==> p in b[1..] {
        NotAgain(a, p);
        NotAgain(b, p);
      }
      OneSequence(a[1..], b[1..]);
      assert a == [a[0]] + a[1..] && b == [b[0]] + b[1..];
    }
  }

  lemma NotAgain(a: seq<Photo>, p: Photo)
    requires InSequence(a) && a != []
    ensures p in a[1..] <==> p in a && p != a[0]
  {
    assert a == [a[0]] + a[1..];
    forall i | 1 <= i < |a| ensures a[i] != a[0] { PrecedesOnce(a[0], a[i]); }
  }

  lemma FolderDecided(photos: seq<Photo>, chooser: Chooser, place: PlaceId, members: seq<Photo>, candidates: seq<Photo>)
    requires Lists(photos, place, false, members) && Lists(photos, place, true, candidates)
    ensures FolderOk(photos, chooser, place) <==> Showable(chooser, members, candidates)
  {
    hide Showable, InSequence;
    if FolderOk(photos, chooser, place) {
      var m, c :| Lists(photos, place, false, m) && Lists(photos, place, true, c) && Showable(chooser, m, c);
      OneSequence(m, members);
      OneSequence(c, candidates);
    }
  }

  // ---------- Every photo once

  /**
   On success every photo is in exactly one place, once: in its folder's entry, of which there is one,
   or among the unclassified.
   */
  lemma EveryPhotoOnce(photos: seq<Photo>, variances: map<int, real>, chooser: Chooser, r: ProcessResult, p: Photo)
    requires Finalizable(photos, variances, chooser) && ResultOk(photos, variances, chooser, r) && p in photos
    ensures p.issue.None? ==>
              && p !in r.unclassified
              && exists i :: 0 <= i < |r.places| && p.place == Some(r.places[i].place)
                             && multiset(r.places[i].attachments)[p] == 1
    ensures p.issue.Some? ==> multiset(r.unclassified)[p] == 1
    ensures forall i | 0 <= i < |r.places| && p in r.places[i].attachments ::
              p.issue.None? && p.place == Some(r.places[i].place)
    ensures forall i, j | 0 <= i < j < |r.places| :: r.places[i].place != r.places[j].place
  {
    forall i | 0 <= i < |r.places| && p in r.places[i].attachments
      ensures p.issue.None? && p.place == Some(r.places[i].place)
    {
      assert EntryOk(photos, chooser, r.places[i]);
    }
    forall i, j | 0 <= i < j < |r.places| ensures r.places[i].place != r.places[j].place {
      var ids := PlaceIds(r.places);
      assert IdBefore(ids[i], ids[j]);
      IdsAreOrdered(ids[i], ids[j]);
    }
    if p.issue.None? {
      assert PhotoAcceptable(p);
      assert p.place.value in PlaceIds(r.places);
      var i :| 0 <= i < |r.places| && PlaceIds(r.places)[i] == p.place.value;
      assert EntryOk(photos, chooser, r.places[i]);
      OnceInSequence(r.places[i].attachments, p);
    } else {
      OnceById(r.unclassified, p);
    }
  }

  /** And nothing else is in the result. */
  lemma NothingElse(photos: seq<Photo>, variances: map<int, real>, chooser: Chooser, r: ProcessResult, p: Photo)
    requires ResultOk(photos, variances, chooser, r)
    requires p in r.unclassified || exists e :: e in r.places && p in e.attachments
    ensures p in photos
  {
    if e :| e in r.places && p in e.attachments {
      assert EntryOk(photos, chooser, e);
    }
  }

  lemma {:induction false} OnceInSequence(list: seq<Photo>, p: Photo)
    requires InSequence(list) && p in list
    ensures multiset(list)[p] == 1
    decreases |list|
  {
    assert list == [list[0]] + list[1..];
    NotAgain(list, p);
    if p in list[1..] { OnceInSequence(list[1..], p); }
  }

  lemma {:induction false} OnceById(list: seq<Photo>, p: Photo)
    requires SortedById(list) && p in list
    ensures multiset(list)[p] == 1
    decreases |list|
  {
    assert list == [list[0]] + list[1..];
    if p in list[1..] {
      var i :| 0 <= i < |list[1..]| && list[1..][i] == p;
      assert list[0].id < list[i + 1].id;
      OnceById(list[1..], p);
    } else {
      assert p == list[0];
    }
  }

  // ---------- What filtering and releasing hand over

  /** A released folder held only blurry photos. */
  lemma ReleasedWereBlurry(before: seq<Photo>, filtered: seq<Photo>, metrics: map<int, Metric>, tuning: Tuning, k: nat)
    requires Measured(metrics, before) && Filtered(before, filtered, metrics, tuning)
    requires k < |filtered| && Unshowable(filtered, filtered[k].place)
    ensures filtered[k].issue == Some(Blurry)
  {
    SharpFolderKeepsOne(before, filtered, metrics, tuning, k);
  }

  /** The duplicate check of `finalize_photos` cannot fail after filtering and releasing. */
  lemma DuplicatesAreFine(before: seq<Photo>, filtered: seq<Photo>, released: seq<Photo>, metrics: map<int, Metric>,
                          tuning: Tuning, k: nat)
    requires Measured(metrics, before) && Filtered(before, filtered, metrics, tuning) && Released(filtered, released)
    requires k < |released|
    ensures DuplicateOk(released, released[k])
  {
    if released[k].issue == Some(Duplicated) {
      assert filtered[k].issue == Some(Duplicated);
      var o := DuplicateNamesFirstKept(before, filtered, metrics, tuning, k);
      assert Covers(filtered, metrics, tuning, o, k);
      assert !Unshowable(filtered, filtered[k].place) by {
        if Unshowable(filtered, filtered[k].place) { ReleasedWereBlurry(before, filtered, metrics, tuning, k); }
      }
      assert released[k] == filtered[k] && released[o] == filtered[o];
    }
  }

  /** Photos as the agent leaves them, with times decided and coordinates in range. */
  predicate Organised(p: Photo) {
    && TimeDecided(p) && (p.spot.Some? ==> SpotInRange(p.spot.value))
    && (if p.place.Some? then p.spot.Some? && p.origin != Unknown && p.issue == Option.None
        else p.issue == Some(UnclearLocation))
  }

  lemma OrganisedIsAcceptable(before: seq<Photo>, filtered: seq<Photo>, released: seq<Photo>, metrics: map<int, Metric>,
                              tuning: Tuning, k: nat)
    requires Measured(metrics, before) && Filtered(before, filtered, metrics, tuning) && Released(filtered, released)
    requires k < |released| && Organised(before[k])
    ensures PhotoAcceptable(released[k])
  {
    assert OnlyVerdict(before[k], filtered[k]) && Judged(filtered, metrics, tuning, k);
    if Unshowable(filtered, filtered[k].place) {
      ReleasedWereBlurry(before, filtered, metrics, tuning, k);
      assert released[k] == Freed(filtered[k]);
    }
  }

  /** A folder nothing was kept of: every photo is blurry, and one of them has GPS. */
  ghost predicate AllBlurry(photos: seq<Photo>, place: PlaceId) {
    && (exists k :: 0 <= k < |photos| && photos[k].place == Some(place) && photos[k].origin == Exif)
    && forall k | 0 <= k < |photos| && photos[k].place == Some(place) :: photos[k].issue == Some(Blurry)
  }

  /** After releasing, the only folders without a photo to show are blurry folders with GPS photos. */
  lemma EmptyFoldersAreBlurry(before: seq<Photo>, filtered: seq<Photo>, released: seq<Photo>, metrics: map<int, Metric>,
                              tuning: Tuning, place: PlaceId)
    requires Measured(metrics, before) && Filtered(before, filtered, metrics, tuning) && Released(filtered, released)
    requires exists k :: 0 <= k < |released| && released[k].place == Some(place)
    ensures (exists k :: 0 <= k < |released| && released[k].place == Some(place) && released[k].issue == Option.None)
            <==> !AllBlurry(released, place)
  {
    forall k | 0 <= k < |released| && released[k].place == Some(place) ensures released[k] == filtered[k] {}
    forall k | 0 <= k < |filtered| && filtered[k].place == Some(place) ensures released[k] == filtered[k] {
      var m :| 0 <= m < |released| && released[m].place == Some(place);
      assert !Unshowable(filtered, Some(place));
    }
    if forall k | 0 <= k < |released| && released[k].place == Some(place) :: released[k].issue != Option.None {
      forall k: nat | k < |released| && released[k].place == Some(place) ensures released[k].issue == Some(Blurry) {
        SharpFolderKeepsOne(before, filtered, metrics, tuning, k);
      }
      assert !Unshowable(filtered, Some(place));
      var k :| 0 <= k < |filtered| && filtered[k].place == Some(place) &&
               !(filtered[k].origin != Exif && filtered[k].issue != Option.None);
      assert released[k].origin == Exif;
    }
  }

  /** What stands between the steps before and a result: the chooser, and all-blurry folders with GPS photos. */
  lemma OnlyBlurryFoldersFail(before: seq<Photo>, filtered: seq<Photo>, released: seq<Photo>,
                              metrics: map<int, Metric>, tuning: Tuning, variances: map<int, real>, chooser: Chooser)
    requires FilterAccepts(before, metrics, tuning) && Measured(metrics, before)
    requires Filtered(before, filtered, metrics, tuning) && Released(filtered, released)
    requires forall k | 0 <= k < |before| :: Organised(before[k])
    requires forall k | 0 <= k < |before| ::
               before[k].id in variances && variances[before[k].id] == metrics[before[k].id].variance
    requires Capable(chooser)
    ensures Finalizable(released, variances, chooser) <==>
            forall place | (exists p :: p in released && p.place == Some(place)) :: !AllBlurry(released, place)
  {
    hide Judged, Filtered, Released, AllBlurry, PhotoAcceptable, DuplicateOk;
    ReleasedIds(before, filtered, released, metrics, tuning);
    forall p | p in released ensures PhotoAcceptable(p) && Scorable(p, variances) && DuplicateOk(released, p) {
      var k: nat :| k < |released| && released[k] == p;
      OrganisedIsAcceptable(before, filtered, released, metrics, tuning, k);
      DuplicatesAreFine(before, filtered, released, metrics, tuning, k);
      assert InputOk(before[k], metrics);
    }
    forall place | exists p :: p in released && p.place == Some(place)
      ensures FolderOk(released, chooser, place) <==> !AllBlurry(released, place)
    {
      var p :| p in released && p.place == Some(place);
      var k: nat :| k < |released| && released[k] == p;
      EmptyFoldersAreBlurry(before, filtered, released, metrics, tuning, place);
      ShowableIfCandidate(released, chooser, place);
    }
  }

  lemma ReleasedIds(before: seq<Photo>, filtered: seq<Photo>, released: seq<Photo>, metrics: map<int, Metric>,
                    tuning: Tuning)
    requires DistinctIds(before) && Measured(metrics, before)
    requires Filtered(before, filtered, metrics, tuning) && Released(filtered, released)
    ensures DistinctIds(released) && |released| == |before|
    ensures forall k | 0 <= k < |before| :: released[k].id == before[k].id
  {
    forall k | 0 <= k < |before| ensures released[k].id == before[k].id { assert OnlyVerdict(before[k], filtered[k]); }
  }

  lemma ShowableIfCandidate(photos: seq<Photo>, chooser: Chooser, place: PlaceId)
    requires DistinctIds(photos)
    requires Capable(chooser)
    ensures FolderOk(photos, chooser, place) <==>
            exists k :: 0 <= k < |photos| && photos[k].place == Some(place) && photos[k].issue == Option.None
  {
    hide InSequence;
    var members := ListExists(photos, place, false);
    var candidates := ListExists(photos, place, true);
    FolderDecided(photos, chooser, place, members, candidates);
    SomeElement(candidates);
    if k :| 0 <= k < |photos| && photos[k].place == Some(place) && photos[k].issue == Option.None {
      assert photos[k] in candidates;
    }
  }

  /** The sorted list of a folder. */
  lemma {:induction false} ListExists(photos: seq<Photo>, place: PlaceId, shown: bool) returns (list: seq<Photo>)
    requires DistinctIds(photos)
    ensures Lists(photos, place, shown, list)
    decreases |photos|
  {
    if photos == [] {
      list := [];
    } else {
      var p, rest := photos[0], photos[1..];
      assert photos == [p] + rest;
      list := ListExists(rest, place, shown);
      if p.place == Some(place) && (shown ==> p.issue == Option.None) {
        var longer := InsertOne(list, p);
        list := longer;
      }
    }
  }

  lemma {:induction false} InsertOne(list: seq<Photo>, p: Photo) returns (longer: seq<Photo>)
    requires InSequence(list) && forall q | q in list :: q.id != p.id
    ensures InSequence(longer) && forall q :: q in longer <==> q in list || q == p
    decreases |list|
  {
    if list == [] || Precedes(p, list[0]) {
      longer := [p] + list;
    } else {
      assert list[0] in list && Precedes(list[0], p);
      assert list == [list[0]] + list[1..];
      var rest := InsertOne(list[1..], p);
      longer := [list[0]] + rest;
      forall q | q in rest ensures Precedes(list[0], q) {
        if q in list[1..] { var i :| 0 <= i < |list[1..]| && list[1..][i] == q; }
      }
    }
  }

  // ---------- The step itself

  method Insert(list: seq<Photo>, p: Photo) returns (longer: seq<Photo>)
    requires InSequence(list) && forall q | q in list :: q.id != p.id
    ensures InSequence(longer) && forall q :: q in longer <==> q in list || q == p
  {
    var i := 0;
    while i < |list| && Precedes(list[i], p)
      invariant i <= |list| && forall m | 0 <= m < i :: Precedes(list[m], p)
    {
      i := i + 1;
    }
    Spliced(list, i, p);
    longer := list[..i] + [p] + list[i..];
  }

  lemma Spliced(list: seq<Photo>, i: nat, p: Photo)
    requires InSequence(list) && i <= |list| && forall q | q in list :: q.id != p.id
    requires (forall m | 0 <= m < i :: Precedes(list[m], p)) && (i < |list| ==> !Precedes(list[i], p))
    ensures InSequence(list[..i] + [p] + list[i..])
    ensures forall q :: q in list[..i] + [p] + list[i..] <==> q in list || q == p
  {
    hide Precedes, InSequence;
    forall m | i <= m < |list| ensures Precedes(p, list[m]) {
      assert list[i] in list;
      PrecedesIsTotal(list[i], p);
      if m > i { PrecedesOn(list, p, i, m); }
    }
    SplicedSequence(list, i, p);
    assert list == list[..i] + list[i..];
  }

  lemma PrecedesOn(list: seq<Photo>, p: Photo, i: nat, m: nat)
    requires InSequence(list) && i < m < |list| && Precedes(p, list[i])
    ensures Precedes(p, list[m])
  {
    assert Precedes(list[i], list[m]);
  }

  lemma SplicedSequence(list: seq<Photo>, i: nat, p: Photo)
    requires InSequence(list) && i <= |list|
    requires (forall m | 0 <= m < i :: Precedes(list[m], p)) && forall m | i <= m < |list| :: Precedes(p, list[m])
    ensures InSequence(list[..i] + [p] + list[i..])
  {
    hide Precedes;
  }

  /** `groups[place_id]`, sorted. */
  method Gather(photos: seq<Photo>, place: PlaceId, shown: bool) returns (list: seq<Photo>)
    requires DistinctIds(photos)
    ensures Lists(photos, place, shown, list)
  {
    list := [];
    for k := 0 to |photos|
      invariant Lists(photos[..k], place, shown, list)
    {
      assert photos[..k + 1] == photos[..k] + [photos[k]];
      assert forall q | q in list :: q.id != photos[k].id by {
        forall q | q in list ensures q.id != photos[k].id { var m :| 0 <= m < k && photos[..k][m] == q; }
      }
      if photos[k].place == Some(place) && (shown ==> photos[k].issue.None?) {
        list := Insert(list, photos[k]);
      }
    }
    assert photos[..|photos|] == photos;
  }

  method TimeRange(list: seq<Photo>) returns (first: Option<int>, last: Option<int>)
    ensures Earliest(list, first) && Latest(list, last)
  {
    first, last := Option.None, Option.None;
    for k := 0 to |list|
      invariant Earliest(list[..k], first) && Latest(list[..k], last)
    {
      assert list[..k + 1] == list[..k] + [list[k]];
      var t := list[k].takenAt;
      if t.Some? {
        if first.None? || t.value < first.value { first := t; }
        if last.None? || last.value < t.value { last := t; }
      }
    }
    assert list[..|list|] == list;
  }

  /** One place of the result, or the error of a folder that cannot be shown. */
  method MakeEntry(photos: seq<Photo>, chooser: Chooser, place: PlaceId) returns (e: Outcome<PlaceEntry>)
    requires DistinctIds(photos)
    ensures e.Done? <==> FolderOk(photos, chooser, place)
    ensures e.Done? ==> e.value.place == place && EntryOk(photos, chooser, e.value)
  {
    var members := Gather(photos, place, false);
    var candidates := Gather(photos, place, true);
    FolderDecided(photos, chooser, place, members, candidates);
    if candidates == [] { return Failure; }
    var representative := chooser.pick(Ids(candidates));
    var center := chooser.center(Spots(members));
    if representative.None? || center.None? || representative.value !in Ids(candidates) { return Failure; }
    var first, last := TimeRange(candidates);
    e := Done(PlaceEntry(place, center.value, first, last, representative.value, candidates));
  }

  method FindById(photos: seq<Photo>, id: Option<int>) returns (o: Option<nat>)
    ensures o.Some? ==> o.value < |photos| && id == Some(photos[o.value].id)
    ensures o.None? ==> forall k | 0 <= k < |photos| :: id != Some(photos[k].id)
  {
    for k := 0 to |photos|
      invariant forall m | 0 <= m < k :: id != Some(photos[m].id)
    {
      if id == Some(photos[k].id) { return Some(k); }
    }
    return Option.None;
  }

  /** What `_validate` raises for: undecided time, coordinates off the globe, folder and issue at odds, a stray original. */
  ghost predicate Inconsistent(p: Photo) {
    || p.timeStatus == Pending || (p.timeStatus == NoTime && p.takenAt.Some?) || (p.timeStatus != NoTime && p.takenAt.None?)
    || (p.spot.Some? && (p.spot.value.latitude < -90.0 || p.spot.value.latitude > 90.0))
    || (p.spot.Some? && (p.spot.value.longitude < -180.0 || p.spot.value.longitude > 180.0))
    || (p.issue == Some(UnclearLocation) && p.place.Some?)
    || (p.issue.None? && p.place.None?)
    || (p.place.Some? && (p.spot.None? || p.origin == Unknown))
    || (p.issue != Some(Duplicated) && p.duplicateOf.Some?)
  }

  /** A photo is acceptable exactly when `_validate` finds nothing to raise. */
  lemma AcceptableIsConsistent(p: Photo)
    ensures PhotoAcceptable(p) <==> !Inconsistent(p)
  {}

  /** The loop over the photos: every check that can fail before places are made. */
  method CheckPhotos(photos: seq<Photo>, variances: map<int, real>) returns (ok: bool)
    requires DistinctIds(photos)
    ensures ok <==> forall p | p in photos :: PhotoAcceptable(p) && Scorable(p, variances) && DuplicateOk(photos, p)
    ensures ok ==> forall p | p in photos :: !Inconsistent(p)
  {
    forall p: Photo ensures PhotoAcceptable(p) <==> !Inconsistent(p) { AcceptableIsConsistent(p); }
    hide PhotoAcceptable, Scorable, Inconsistent;
    for k := 0 to |photos|
      invariant forall p | p in photos[..k] :: PhotoAcceptable(p) && Scorable(p, variances) && DuplicateOk(photos, p)
    {
      assert photos[..k + 1] == photos[..k] + [photos[k]];
      var p := photos[k];
      assert p in photos;
      if !PhotoAcceptable(p) || !Scorable(p, variances) { return false; }
      if p.issue == Some(Duplicated) {
        var o := FindById(photos, p.duplicateOf);
        if o.None? || photos[o.value].issue != KeptIssue(p.place) || photos[o.value].place != p.place {
          return false;
        }
      }
    }
    assert photos[..|photos|] == photos;
    ok := true;
  }

  method Unclassified(photos: seq<Photo>) returns (list: seq<Photo>)
    requires DistinctIds(photos)
    ensures SortedById(list) && forall p :: p in list <==> p in photos && p.issue.Some?
  {
    list := [];
    for k := 0 to |photos|
      invariant SortedById(list) && forall p :: p in list <==> p in photos[..k] && p.issue.Some?
    {
      assert photos[..k + 1] == photos[..k] + [photos[k]];
      assert forall q | q in list :: q.id != photos[k].id by {
        forall q | q in list ensures q.id != photos[k].id { var m :| 0 <= m < k && photos[..k][m] == q; }
      }
      if photos[k].issue.Some? {
        list := InsertById(list, photos[k]);
      }
    }
    assert photos[..|photos|] == photos;
  }

  method HasDistinctIds(photos: seq<Photo>) returns (b: bool)
    ensures b <==> DistinctIds(photos)
  {
    var seen: set<int> := {};
    for k := 0 to |photos|
      invariant DistinctIds(photos[..k]) && forall id :: id in seen <==> exists m :: 0 <= m < k && photos[m].id == id
    {
      if photos[k].id in seen {
        var m :| 0 <= m < k && photos[m].id == photos[k].id;
        return false;
      }
      assert photos[..k + 1] == photos[..k] + [photos[k]];
      seen := seen + {photos[k].id};
    }
    assert photos[..|photos|] == photos;
    b := true;
  }

  lemma IdChain(p: PlaceId, q: PlaceId, r: PlaceId)
    requires IdBefore(p, q) && IdBefore(q, r)
    ensures IdBefore(p, r)
  {
    TextChain(Text(p), Text(q), Text(r));
  }

  lemma SplicedIds(order: seq<PlaceId>, i: nat, p: PlaceId)
    requires ById(order) && i <= |order| && p !in order
    requires (forall k | 0 <= k < i :: IdBefore(order[k], p)) && (i < |order| ==> !IdBefore(order[i], p))
    ensures ById(order[..i] + [p] + order[i..])
  {
    hide IdBefore;
    forall k | i <= k < |order| ensures IdBefore(p, order[k]) {
      assert order[i] in order;
      IdsAreOrdered(order[i], p);
      if k > i { IdChain(p, order[i], order[k]); }
    }
    var longer := order[..i] + [p] + order[i..];
    forall k | 0 <= k < |longer| ensures longer[k] == if k < i then order[k] else if k == i then p else order[k - 1] {}
  }

  /** `sorted(groups.items())`, as far as the keys decide. */
  method SortIds(used: set<PlaceId>) returns (order: seq<PlaceId>)
    ensures ById(order) && forall p :: p in order <==> p in used
  {
    hide ById, IdBefore;
    order := [];
    NoIds();
    var left := used;
    while left != {}
      invariant left <= used && ById(order) && forall p :: p in order <==> p in used && p !in left
      decreases |left|
    {
      var p :| p in left;
      left := left - {p};
      var i := 0;
      while i < |order| && IdBefore(order[i], p)
        invariant i <= |order| && forall k | 0 <= k < i :: IdBefore(order[k], p)
      {
        i := i + 1;
      }
      SplicedIds(order, i, p);
      assert order == order[..i] + order[i..];
      order := order[..i] + [p] + order[i..];
    }
  }

  lemma NoIds()
    ensures ById([])
  {}

  /** The score of every photo. */
  method Evaluate(photos: seq<Photo>, variances: map<int, real>) returns (evaluations: map<int, Option<int>>)
    requires DistinctIds(photos) && forall p | p in photos :: Scorable(p, variances)
    ensures EvaluationsOk(photos, variances, evaluations)
  {
    hide Evaluation, Scorable;
    evaluations := map[];
    for k := 0 to |photos|
      invariant EvaluationsOk(photos[..k], variances, evaluations)
    {
      assert photos[..k + 1] == photos[..k] + [photos[k]];
      assert photos[k] in photos;
      forall p | p in photos[..k] ensures p.id != photos[k].id { var m :| 0 <= m < k && photos[..k][m] == p; }
      evaluations := evaluations[photos[k].id := Evaluation(photos[k], variances)];
    }
    assert photos[..|photos|] == photos;
  }

  /** The loop over the folders, in the order of their IDs; it stops at the first that cannot be shown. */
  method MakeEntries(photos: seq<Photo>, chooser: Chooser, order: seq<PlaceId>) returns (places: Outcome<seq<PlaceEntry>>)
    requires DistinctIds(photos)
    ensures places.Done? <==> forall place | place in order :: FolderOk(photos, chooser, place)
    ensures places.Done? ==>
              PlaceIds(places.value) == order && forall e | e in places.value :: EntryOk(photos, chooser, e)
  {
    hide FolderOk, EntryOk;
    var made: seq<PlaceEntry> := [];
    for i := 0 to |order|
      invariant PlaceIds(made) == order[..i] && forall e | e in made :: EntryOk(photos, chooser, e)
      invariant forall k | 0 <= k < i :: FolderOk(photos, chooser, order[k])
    {
      var e := MakeEntry(photos, chooser, order[i]);
      if e.Failure? {
        assert order[i] in order;
        return Failure;
      }
      made := made + [e.value];
    }
    places := Done(made);
  }

  /** `finalize_photos`. */
  method Finalize(photos: seq<Photo>, variances: map<int, real>, chooser: Chooser) returns (r: Outcome<ProcessResult>)
    ensures r.Done? <==> Finalizable(photos, variances, chooser)
    ensures r.Done? ==> ResultOk(photos, variances, chooser, r.value)
  {
    hide PhotoAcceptable, Scorable, DuplicateOk, FolderOk, EntryOk, ById;
    var distinct := HasDistinctIds(photos);
    if !distinct { return Failure; }
    var ok := CheckPhotos(photos, variances);
    if !ok { return Failure; }
    var evaluations := Evaluate(photos, variances);
    var used: set<PlaceId> := set p | p in photos && p.place.Some? :: p.place.value;
    assert forall place :: place in used <==> exists p :: p in photos && p.place == Some(place);
    var order := SortIds(used);
    var places := MakeEntries(photos, chooser, order);
    if places.Failure? {
      ghost var place :| place in order && !FolderOk(photos, chooser, place);
      assert place in used;
      return Failure;
    }
    forall p | p in photos && p.place.Some? ensures FolderOk(photos, chooser, p.place.value) {
      assert p.place.value in order;
    }
    var unclassified := Unclassified(photos);
    r := Done(ProcessResult(places.value, unclassified, evaluations));
  }
}
