/**
 Rule-based placement of photos without a location (app/pipeline/steps/assigning.py): two rules,
 applied in turn until no photo moves.  The specification is a function of the photos in ID order.
 */
module Assigning {
  import opened Wrappers
  import opened Photos
  import opened Merging
  import opened TripPlaces

  /** Thresholds, the trip's period as first and last instant, and the embeddings' similarity. */
  datatype Rules = Rules(similarity: Similarity, minSim: real, gap: int, first: int, last: int)

  predicate InPeriod(rules: Rules, p: Photo) {
    p.takenAt.None? || rules.first <= p.takenAt.value <= rules.last
  }

  predicate IsTarget(rules: Rules, p: Photo) {
    p.place.None? && p.issue == Some(UnclearLocation) && !p.hasGps && InPeriod(rules, p)
  }

  // ---------- Interpolation by time

  /** A photo on the time track: in a folder, with a known time. */
  predicate Timed(p: Photo) {
    p.place.Some? && p.takenAt.Some?
  }

  /** Order of the track: time, then photo ID. */
  predicate NotLater(p: Photo, q: Photo)
    requires Timed(p) && Timed(q)
  {
    p.takenAt.value < q.takenAt.value || (p.takenAt.value == q.takenAt.value && p.id <= q.id)
  }

  /** The last photo of the track up to time t. */
  ghost predicate IsLastBefore(track: seq<Photo>, t: int, b: int) {
    && 0 <= b < |track| && Timed(track[b]) && track[b].takenAt.value <= t
    && forall c | 0 <= c < |track| && Timed(track[c]) && track[c].takenAt.value <= t :: NotLater(track[c], track[b])
  }

  /** The first photo of the track from time t on. */
  ghost predicate IsFirstAfter(track: seq<Photo>, t: int, a: int) {
    && 0 <= a < |track| && Timed(track[a]) && track[a].takenAt.value >= t
    && forall c | 0 <= c < |track| && Timed(track[c]) && track[c].takenAt.value >= t :: NotLater(track[a], track[c])
  }

  /** The neighbours in time are in one folder, both within the gap. */
  ghost predicate Interpolates(track: seq<Photo>, gap: int, t: int, place: PlaceId) {
    exists b, a ::
      && IsLastBefore(track, t, b) && IsFirstAfter(track, t, a)
      && track[b].place == Some(place) == track[a].place
      && t - track[b].takenAt.value <= gap && track[a].takenAt.value - t <= gap
  }

  lemma InterpolatesOnce(track: seq<Photo>, gap: int, t: int, p: PlaceId, q: PlaceId)
    requires SortedById(track) && Interpolates(track, gap, t, p) && Interpolates(track, gap, t, q)
    ensures p == q
  {
    var b :| IsLastBefore(track, t, b) && track[b].place == Some(p);
    var c :| IsLastBefore(track, t, c) && track[c].place == Some(q);
    assert NotLater(track[b], track[c]) && NotLater(track[c], track[b]);
  }

  // ---------- Following similar photos

  ghost predicate Resembles(photos: seq<Photo>, rules: Rules, k: nat, i: int)
    requires k < |photos|
  {
    && 0 <= i < |photos| && i != k && photos[i].place.Some?
    && rules.similarity(photos[i].id, photos[k].id) >= rules.minSim
  }

  /** The photos similar enough are all in this one folder. */
  ghost predicate Follows(photos: seq<Photo>, rules: Rules, k: nat, place: PlaceId)
    requires k < |photos|
  {
    && (exists i :: Resembles(photos, rules, k, i))
    && (forall i | Resembles(photos, rules, k, i) :: photos[i].place == Some(place))
  }

  // ---------- The specification

  /** The folder a rule names for a photo, if any. */
  ghost function TimePlace(track: seq<Photo>, rules: Rules, p: Photo): Option<PlaceId> {
    if p.takenAt.Some? && exists place :: Interpolates(track, rules.gap, p.takenAt.value, place) then
      var place :| Interpolates(track, rules.gap, p.takenAt.value, place);
      Some(place)
    else Option.None
  }

  ghost function SimilarPlace(photos: seq<Photo>, rules: Rules, k: nat): Option<PlaceId>
    requires k < |photos|
  {
    if exists place :: Follows(photos, rules, k, place) then
      var place :| Follows(photos, rules, k, place);
      Some(place)
    else Option.None
  }

  /** `_place`: the coordinates of the folder's most similar GPS photo. */
  ghost function Put(photos: seq<Photo>, rules: Rules, k: nat, place: PlaceId): seq<Photo>
    requires k < |photos|
  {
    if HasAnchor([], photos, place) && exists a :: IsNearest([], photos, rules.similarity, place, photos[k].id, a) then
      var a :| IsNearest([], photos, rules.similarity, place, photos[k].id, a);
      photos[k := Placed(photos[k], place, photos[a].spot)]
    else photos
  }

  ghost function PutIf(photos: seq<Photo>, rules: Rules, k: nat, place: Option<PlaceId>): seq<Photo>
    requires k < |photos|
  {
    if IsTarget(rules, photos[k]) && place.Some? then Put(photos, rules, k, place.value) else photos
  }

  /** The first pass over the first n photos, with the track as it was when the round began. */
  ghost function TimePass(track: seq<Photo>, rules: Rules, n: nat): (r: seq<Photo>)
    requires n <= |track|
    ensures |r| == |track|
  {
    if n == 0 then track
    else var before := TimePass(track, rules, n - 1);
         PutIf(before, rules, n - 1, TimePlace(track, rules, before[n - 1]))
  }

  /** The second pass: photos placed a moment ago count at once. */
  ghost function SimilarPass(photos: seq<Photo>, rules: Rules, n: nat): (r: seq<Photo>)
    requires n <= |photos|
    ensures |r| == |photos|
  {
    if n == 0 then photos
    else var before := SimilarPass(photos, rules, n - 1);
         PutIf(before, rules, n - 1, SimilarPlace(before, rules, n - 1))
  }

  ghost function Round(photos: seq<Photo>, rules: Rules): (r: seq<Photo>)
    ensures |r| == |photos|
  {
    SimilarPass(TimePass(photos, rules, |photos|), rules, |photos|)
  }

  /** How many targets have no folder yet. */
  function Waiting(photos: seq<Photo>, rules: Rules): nat {
    if photos == [] then 0
    else Waiting(photos[..|photos| - 1], rules) + (if IsTarget(rules, photos[|photos| - 1]) then 1 else 0)
  }

  // ---------- One placement

  /** One step: nothing, or one target put into a folder with the right coordinates. */
  ghost predicate StepOk(before: seq<Photo>, after: seq<Photo>, rules: Rules, k: nat, place: Option<PlaceId>)
    requires k < |before|
  {
    after == before ||
    (&& IsTarget(rules, before[k]) && place.Some?
     && |after| == |before| && after == before[k := Placed(before[k], place.value, after[k].spot)]
     && HasAnchor([], before, place.value)
     && SpotFor([], before, [], rules.similarity, place.value, before[k].id, after[k].spot))
  }

  lemma PutIfOk(photos: seq<Photo>, rules: Rules, k: nat, place: Option<PlaceId>)
    requires k < |photos|
    ensures StepOk(photos, PutIf(photos, rules, k, place), rules, k, place)
  {}

  lemma {:induction false} WaitingUpdate(photos: seq<Photo>, rules: Rules, k: nat, p: Photo)
    requires k < |photos|
    ensures Waiting(photos[k := p], rules) ==
            Waiting(photos, rules) - (if IsTarget(rules, photos[k]) then 1 else 0) + (if IsTarget(rules, p) then 1 else 0)
    decreases |photos|
  {
    var n := |photos| - 1;
    if k < n {
      assert photos[k := p][..n] == photos[..n][k := p];
      WaitingUpdate(photos[..n], rules, k, p);
    } else {
      assert photos[k := p][..n] == photos[..n];
    }
  }

  lemma StepShrinks(before: seq<Photo>, after: seq<Photo>, rules: Rules, k: nat, place: Option<PlaceId>)
    requires k < |before| && StepOk(before, after, rules, k, place)
    ensures after == before || Waiting(after, rules) < Waiting(before, rules)
  {
    if after != before { WaitingUpdate(before, rules, k, after[k]); }
  }

  lemma {:induction false} TimePassShrinks(track: seq<Photo>, rules: Rules, n: nat)
    requires n <= |track|
    ensures TimePass(track, rules, n) == track || Waiting(TimePass(track, rules, n), rules) < Waiting(track, rules)
  {
    hide TimePlace, PutIf, StepOk, IsTarget, Waiting;
    if n > 0 {
      TimePassShrinks(track, rules, n - 1);
      var before := TimePass(track, rules, n - 1);
      var place := TimePlace(track, rules, before[n - 1]);
      PutIfOk(before, rules, n - 1, place);
      StepShrinks(before, PutIf(before, rules, n - 1, place), rules, n - 1, place);
    }
  }

  lemma {:induction false} SimilarPassShrinks(photos: seq<Photo>, rules: Rules, n: nat)
    requires n <= |photos|
    ensures SimilarPass(photos, rules, n) == photos || Waiting(SimilarPass(photos, rules, n), rules) < Waiting(photos, rules)
  {
    hide SimilarPlace, PutIf, StepOk, IsTarget, Waiting;
    if n > 0 {
      SimilarPassShrinks(photos, rules, n - 1);
      var before := SimilarPass(photos, rules, n - 1);
      var place := SimilarPlace(before, rules, n - 1);
      PutIfOk(before, rules, n - 1, place);
      StepShrinks(before, PutIf(before, rules, n - 1, place), rules, n - 1, place);
    }
  }

  /** A round that changes anything leaves fewer targets waiting. */
  lemma RoundShrinks(photos: seq<Photo>, rules: Rules)
    ensures Round(photos, rules) == photos || Waiting(Round(photos, rules), rules) < Waiting(photos, rules)
  {
    TimePassShrinks(photos, rules, |photos|);
    SimilarPassShrinks(TimePass(photos, rules, |photos|), rules, |photos|);
  }

  /** Rounds until one changes nothing. */
  ghost function Settled(photos: seq<Photo>, rules: Rules): (r: seq<Photo>)
    ensures |r| == |photos|
    decreases Waiting(photos, rules)
  {
    RoundShrinks(photos, rules);
    if Round(photos, rules) == photos then photos else Settled(Round(photos, rules), rules)
  }

  // ---------- Nothing is left to do at the end

  lemma {:induction false} SettledStops(photos: seq<Photo>, rules: Rules)
    ensures Round(Settled(photos, rules), rules) == Settled(photos, rules)
    decreases Waiting(photos, rules)
  {
    hide Round;
    RoundShrinks(photos, rules);
    if Round(photos, rules) != photos { SettledStops(Round(photos, rules), rules); }
  }

  /** From the first n photos of a pass to the first m. */
  lemma {:induction false} TimePassGoesOn(track: seq<Photo>, rules: Rules, n: nat, m: nat)
    requires n <= m <= |track|
    ensures TimePass(track, rules, m) == TimePass(track, rules, n)
            || Waiting(TimePass(track, rules, m), rules) < Waiting(TimePass(track, rules, n), rules)
    decreases m
  {
    hide TimePlace, PutIf, StepOk, IsTarget, Waiting;
    if n < m {
      TimePassGoesOn(track, rules, n, m - 1);
      var before := TimePass(track, rules, m - 1);
      var place := TimePlace(track, rules, before[m - 1]);
      PutIfOk(before, rules, m - 1, place);
      StepShrinks(before, PutIf(before, rules, m - 1, place), rules, m - 1, place);
    }
  }

  lemma {:induction false} SimilarPassGoesOn(photos: seq<Photo>, rules: Rules, n: nat, m: nat)
    requires n <= m <= |photos|
    ensures SimilarPass(photos, rules, m) == SimilarPass(photos, rules, n)
            || Waiting(SimilarPass(photos, rules, m), rules) < Waiting(SimilarPass(photos, rules, n), rules)
    decreases m
  {
    hide SimilarPlace, PutIf, StepOk, IsTarget, Waiting;
    if n < m {
      SimilarPassGoesOn(photos, rules, n, m - 1);
      var before := SimilarPass(photos, rules, m - 1);
      var place := SimilarPlace(before, rules, m - 1);
      PutIfOk(before, rules, m - 1, place);
      StepShrinks(before, PutIf(before, rules, m - 1, place), rules, m - 1, place);
    }
  }

  /** A round that changes nothing changed nothing at any of its steps. */
  lemma StillRound(photos: seq<Photo>, rules: Rules, n: nat)
    requires Round(photos, rules) == photos && n <= |photos|
    ensures TimePass(photos, rules, n) == photos && SimilarPass(photos, rules, n) == photos
  {
    hide TimePass, SimilarPass, Waiting;
    var all := |photos|;
    var mid := TimePass(photos, rules, all);
    TimePassShrinks(photos, rules, all);
    SimilarPassShrinks(mid, rules, all);
    assert mid == photos;
    TimePassShrinks(photos, rules, n);
    TimePassGoesOn(photos, rules, n, all);
    SimilarPassShrinks(photos, rules, n);
    SimilarPassGoesOn(photos, rules, n, all);
  }

  lemma PutMoves(photos: seq<Photo>, rules: Rules, k: nat, place: PlaceId)
    requires SortedById(photos) && k < |photos| && IsTarget(rules, photos[k]) && HasAnchor([], photos, place)
    ensures Put(photos, rules, k, place) != photos
  {
    var a := NearestExists(photos, rules.similarity, place, photos[k].id);
    assert Put(photos, rules, k, place)[k].place.Some?;
  }

  lemma NearestExists(photos: seq<Photo>, similarity: Similarity, place: PlaceId, id: int) returns (a: int)
    requires HasAnchor([], photos, place)
    ensures IsNearest([], photos, similarity, place, id, a)
  {
    a :| IsAnchor([], photos, place, a);
    for i := 0 to |photos|
      invariant IsAnchor([], photos, place, a)
      invariant forall b | 0 <= b < i && IsAnchor([], photos, place, b) :: AsGood(similarity, photos[a], photos[b], id)
    {
      if IsAnchor([], photos, place, i) && !AsGood(similarity, photos[a], photos[i], id) { a := i; }
    }
  }

  /** A folder in use has a GPS photo of its own. */
  lemma UsedHasAnchor(photos: seq<Photo>, i: nat)
    requires Grounded(photos, [], []) && i < |photos| && photos[i].place.Some?
    ensures HasAnchor([], photos, photos[i].place.value)
  {
    var p := photos[i].place.value;
    assert Known(photos, [], p);
    var k :| 0 <= k < |photos| && photos[k].origin == Exif && photos[k].place == Some(p);
    assert IsAnchor([], photos, p, k);
  }

  /** In the final state no remaining target satisfies either rule. */
  lemma NothingLeftToDo(photos: seq<Photo>, rules: Rules, k: nat, place: PlaceId)
    requires SortedById(photos) && Grounded(photos, [], []) && Round(photos, rules) == photos
    requires k < |photos| && IsTarget(rules, photos[k])
    ensures photos[k].takenAt.Some? ==> !Interpolates(photos, rules.gap, photos[k].takenAt.value, place)
    ensures !Follows(photos, rules, k, place)
  {
    hide TimePass, SimilarPass, Round;
    StillRound(photos, rules, k);
    StillRound(photos, rules, k + 1);
    TimeStepIs(photos, rules, k);
    SimilarStepIs(photos, rules, k);
    var t := TimePlace(photos, rules, photos[k]);
    if t.Some? {
      var b :| IsLastBefore(photos, photos[k].takenAt.value, b) && photos[b].place == t;
      UsedHasAnchor(photos, b);
      PutMoves(photos, rules, k, t.value);
    }
    var s := SimilarPlace(photos, rules, k);
    if s.Some? {
      var i :| Resembles(photos, rules, k, i);
      UsedHasAnchor(photos, i);
      PutMoves(photos, rules, k, s.value);
    }
  }

  /** The result of the step: every placement is justified, and no rule applies to what is left. */
  lemma SettledIsComplete(photos: seq<Photo>, rules: Rules)
    requires SortedById(photos) && Grounded(photos, [], [])
    ensures Assigned(photos, Settled(photos, rules), rules)
    ensures var r := Settled(photos, rules);
            forall k, place | 0 <= k < |r| && IsTarget(rules, r[k]) ::
              && (r[k].takenAt.Some? ==> !Interpolates(r, rules.gap, r[k].takenAt.value, place))
              && !Follows(r, rules, k, place)
  {
    hide Assigned, Grounded, Round, Settled, Interpolates, Follows, IsTarget;
    SettledAssigns(photos, rules);
    SettledStops(photos, rules);
    var r := Settled(photos, rules);
    AssignedGrounded(photos, r, rules);
    forall k, place | 0 <= k < |r| && IsTarget(rules, r[k])
      ensures r[k].takenAt.Some? ==> !Interpolates(r, rules.gap, r[k].takenAt.value, place)
      ensures !Follows(r, rules, k, place)
    {
      NothingLeftToDo(r, rules, k, place);
    }
  }

  lemma TimeStepIs(track: seq<Photo>, rules: Rules, k: nat)
    requires k < |track|
    ensures var before := TimePass(track, rules, k);
            TimePass(track, rules, k + 1) == PutIf(before, rules, k, TimePlace(track, rules, before[k]))
  {}

  lemma SimilarStepIs(photos: seq<Photo>, rules: Rules, k: nat)
    requires k < |photos|
    ensures var before := SimilarPass(photos, rules, k);
            SimilarPass(photos, rules, k + 1) == PutIf(before, rules, k, SimilarPlace(before, rules, k))
  {}

  // ---------- What a placement is worth

  /** Folders stay grounded, placed photos stay put, and newly placed ones have their folder's nearest coordinates. */
  ghost predicate Assigned(before: seq<Photo>, after: seq<Photo>, rules: Rules) {
    && Extends(before, after) && Grounded(after, [], [])
    && (forall k | 0 <= k < |before| && before[k] != after[k] ::
          && IsTarget(rules, before[k])
          && SpotFor([], after, [], rules.similarity, after[k].place.value, after[k].id, after[k].spot))
  }

  lemma StepAssigns(before: seq<Photo>, after: seq<Photo>, rules: Rules, k: nat, place: Option<PlaceId>)
    requires k < |before| && Grounded(before, [], []) && StepOk(before, after, rules, k, place)
    ensures Assigned(before, after, rules)
  {
    if after != before {
      SpotIsSome([], before, [], rules.similarity, place.value, before[k].id, after[k].spot);
      assert Known(before, [], place.value) by {
        var a :| IsAnchor([], before, place.value, a);
        assert Known(before, [], before[a].place.value);
      }
      PlacingKeepsGrounded(before, [], [], k, place.value, after[k].spot);
      SpotStays([], before, after, [], [], rules.similarity, place.value, before[k].id, after[k].spot);
    }
  }

  lemma AssignedJoins(a: seq<Photo>, b: seq<Photo>, c: seq<Photo>, rules: Rules)
    requires Assigned(a, b, rules) && Assigned(b, c, rules)
    ensures Assigned(a, c, rules)
  {
    hide Grounded;
    ExtendsJoins(a, b, c);
    GroundedPhotosOk(b);
    forall k | 0 <= k < |a| && a[k] != c[k]
      ensures IsTarget(rules, a[k])
      ensures SpotFor([], c, [], rules.similarity, c[k].place.value, c[k].id, c[k].spot)
    {
      if b[k] == c[k] {
        SpotStays([], b, c, [], [], rules.similarity, c[k].place.value, c[k].id, c[k].spot);
      } else {
        assert b[k].place.None?;
        assert a[k] == b[k];
      }
    }
  }

  lemma GroundedPhotosOk(photos: seq<Photo>)
    requires Grounded(photos, [], [])
    ensures forall k | 0 <= k < |photos| :: PhotoOk(photos[k])
  {}

  lemma AssignedSelf(photos: seq<Photo>, rules: Rules)
    requires Grounded(photos, [], [])
    ensures Assigned(photos, photos, rules)
  {}

  lemma {:induction false} TimePassAssigns(track: seq<Photo>, rules: Rules, n: nat)
    requires n <= |track| && Grounded(track, [], [])
    ensures Assigned(track, TimePass(track, rules, n), rules)
  {
    hide Assigned, Grounded, TimePass, TimePlace, PutIf, StepOk;
    if n == 0 {
      AssignedSelf(track, rules);
      TimePassStarts(track, rules);
    } else {
      TimePassAssigns(track, rules, n - 1);
      var before := TimePass(track, rules, n - 1);
      var place := TimePlace(track, rules, before[n - 1]);
      TimeStepIs(track, rules, n - 1);
      PutIfOk(before, rules, n - 1, place);
      AssignedGrounded(track, before, rules);
      StepAssigns(before, PutIf(before, rules, n - 1, place), rules, n - 1, place);
      AssignedJoins(track, before, TimePass(track, rules, n), rules);
    }
  }

  lemma AssignedGrounded(before: seq<Photo>, after: seq<Photo>, rules: Rules)
    requires Assigned(before, after, rules)
    ensures Grounded(after, [], []) && |after| == |before| && (SortedById(before) ==> SortedById(after))
  {
    forall k | 0 <= k < |before| ensures before[k].id == after[k].id { assert SamePicture(before[k], after[k]); }
  }

  lemma TimePassStarts(track: seq<Photo>, rules: Rules)
    ensures TimePass(track, rules, 0) == track && SimilarPass(track, rules, 0) == track
  {}

  lemma {:induction false} SimilarPassAssigns(photos: seq<Photo>, rules: Rules, n: nat)
    requires n <= |photos| && Grounded(photos, [], [])
    ensures Assigned(photos, SimilarPass(photos, rules, n), rules)
  {
    hide Assigned, Grounded, SimilarPass, SimilarPlace, PutIf, StepOk;
    if n == 0 {
      AssignedSelf(photos, rules);
      TimePassStarts(photos, rules);
    } else {
      SimilarPassAssigns(photos, rules, n - 1);
      var before := SimilarPass(photos, rules, n - 1);
      var place := SimilarPlace(before, rules, n - 1);
      SimilarStepIs(photos, rules, n - 1);
      PutIfOk(before, rules, n - 1, place);
      AssignedGrounded(photos, before, rules);
      StepAssigns(before, PutIf(before, rules, n - 1, place), rules, n - 1, place);
      AssignedJoins(photos, before, SimilarPass(photos, rules, n), rules);
    }
  }

  lemma RoundAssigns(photos: seq<Photo>, rules: Rules)
    requires Grounded(photos, [], [])
    ensures Assigned(photos, Round(photos, rules), rules)
  {
    hide Assigned, Grounded, TimePass, SimilarPass;
    TimePassAssigns(photos, rules, |photos|);
    var mid := TimePass(photos, rules, |photos|);
    AssignedGrounded(photos, mid, rules);
    SimilarPassAssigns(mid, rules, |photos|);
    AssignedJoins(photos, mid, Round(photos, rules), rules);
  }

  /** The whole step: see `Assigned`. */
  lemma {:induction false} SettledAssigns(photos: seq<Photo>, rules: Rules)
    requires Grounded(photos, [], [])
    ensures Assigned(photos, Settled(photos, rules), rules)
    decreases Waiting(photos, rules)
  {
    hide Assigned, Grounded, Round;
    RoundShrinks(photos, rules);
    var next := Round(photos, rules);
    if next == photos {
      AssignedSelf(photos, rules);
    } else {
      RoundAssigns(photos, rules);
      AssignedGrounded(photos, next, rules);
      SettledAssigns(next, rules);
      AssignedJoins(photos, next, Settled(photos, rules), rules);
    }
  }

  lemma SameLength<T>(a: seq<T>, b: seq<T>)
    requires multiset(a) == multiset(b)
    ensures |a| == |b|
  {
    assert |a| == |multiset(a)| == |multiset(b)| == |b|;
  }

  lemma SameLast(a: seq<Photo>, b: seq<Photo>)
    requires SortedById(a) && SortedById(b) && multiset(a) == multiset(b) && |a| == |b| > 0
    ensures a[|a| - 1] == b[|b| - 1]
  {
    var n := |a| - 1;
    assert a[n] in multiset(b) && b[n] in multiset(a);
    var i :| 0 <= i <= n && b[i] == a[n];
    var j :| 0 <= j <= n && a[j] == b[n];
  }

  lemma DropLast<T>(a: seq<T>, b: seq<T>)
    requires multiset(a) == multiset(b) && |a| == |b| > 0 && a[|a| - 1] == b[|b| - 1]
    ensures multiset(a[..|a| - 1]) == multiset(b[..|b| - 1])
  {
    var n := |a| - 1;
    assert a == a[..n] + [a[n]] && b == b[..n] + [b[n]];
    assert multiset(a[..n]) == multiset(a) - multiset{a[n]};
    assert multiset(b[..n]) == multiset(b) - multiset{b[n]};
  }

  /** Whatever the order photos came in, there is one way to put them in ID order. */
  lemma {:induction false} OneOrder(a: seq<Photo>, b: seq<Photo>)
    requires SortedById(a) && SortedById(b) && multiset(a) == multiset(b)
    ensures a == b
    decreases |a|
  {
    SameLength(a, b);
    if a != [] {
      var n := |a| - 1;
      SameLast(a, b);
      DropLast(a, b);
      OneOrder(a[..n], b[..n]);
      assert a == a[..n] + [a[n]] && b == b[..n] + [b[n]];
    }
  }

  // ---------- The two rules in plain terms

  /** A photo the step may place: no GPS, no folder, location unclear, and taken in the period if its time is known. */
  predicate Waits(rules: Rules, p: Photo) {
    && p.place == Option.None && p.issue == Some(UnclearLocation) && !p.hasGps
    && (p.takenAt.Some? ==> rules.first <= p.takenAt.value && p.takenAt.value <= rules.last)
  }

  /** Photo b is in a folder, taken at `t` or before, and none of these comes after it by time, then ID. */
  ghost predicate LastUpTo(track: seq<Photo>, t: int, b: int) {
    && 0 <= b < |track| && track[b].place.Some? && track[b].takenAt.Some? && track[b].takenAt.value <= t
    && forall c | 0 <= c < |track| && track[c].place.Some? && track[c].takenAt.Some? && track[c].takenAt.value <= t ::
         track[c].takenAt.value < track[b].takenAt.value
         || (track[c].takenAt.value == track[b].takenAt.value && track[c].id <= track[b].id)
  }

  /** The same from `t` on: none comes before it. */
  ghost predicate FirstFrom(track: seq<Photo>, t: int, a: int) {
    && 0 <= a < |track| && track[a].place.Some? && track[a].takenAt.Some? && track[a].takenAt.value >= t
    && forall c | 0 <= c < |track| && track[c].place.Some? && track[c].takenAt.Some? && track[c].takenAt.value >= t ::
         track[c].takenAt.value > track[a].takenAt.value
         || (track[c].takenAt.value == track[a].takenAt.value && track[c].id >= track[a].id)
  }

  /** The neighbours in time are both in `place` and within the gap. */
  ghost predicate Between(track: seq<Photo>, gap: int, t: int, place: PlaceId) {
    exists b, a ::
      && LastUpTo(track, t, b) && FirstFrom(track, t, a)
      && track[b].place == Some(place) && track[b].takenAt.value >= t - gap
      && track[a].place == Some(place) && track[a].takenAt.value <= t + gap
  }

  ghost predicate Alike(photos: seq<Photo>, rules: Rules, k: nat, i: int)
    requires k < |photos|
  {
    0 <= i < |photos| && i != k && photos[i].place.Some? && rules.minSim <= rules.similarity(photos[i].id, photos[k].id)
  }

  /** There are placed photos like photo k, and `place` holds them all. */
  ghost predicate OneFolder(photos: seq<Photo>, rules: Rules, k: nat, place: PlaceId)
    requires k < |photos|
  {
    && (exists i :: Alike(photos, rules, k, i))
    && (forall i | 0 <= i < |photos| && photos[i].place != Some(place) :: !Alike(photos, rules, k, i))
  }

  /** Put into `place`, with the coordinates of its GPS photo most similar to it, of equals the smallest ID. */
  ghost predicate PlacedFrom(photos: seq<Photo>, similarity: Similarity, before: Photo, after: Photo, place: PlaceId) {
    exists a ::
      && 0 <= a < |photos| && photos[a].origin == Exif && photos[a].place == Some(place)
      && (forall b | 0 <= b < |photos| && photos[b].origin == Exif && photos[b].place == Some(place) ::
            similarity(photos[b].id, before.id) < similarity(photos[a].id, before.id)
            || (similarity(photos[b].id, before.id) == similarity(photos[a].id, before.id) && photos[a].id <= photos[b].id))
      && after == before.(place := Some(place), spot := photos[a].spot, origin := Inferred, issue := Option.None)
  }

  lemma LastUpToIs(track: seq<Photo>, t: int, b: int)
    ensures LastUpTo(track, t, b) <==> IsLastBefore(track, t, b)
  {}

  lemma FirstFromIs(track: seq<Photo>, t: int, a: int)
    ensures FirstFrom(track, t, a) <==> IsFirstAfter(track, t, a)
  {}

  lemma BetweenIs(track: seq<Photo>, gap: int, t: int, place: PlaceId)
    ensures Between(track, gap, t, place) <==> Interpolates(track, gap, t, place)
  {
    hide LastUpTo, FirstFrom, IsLastBefore, IsFirstAfter;
    forall b ensures LastUpTo(track, t, b) <==> IsLastBefore(track, t, b) { LastUpToIs(track, t, b); }
    forall a ensures FirstFrom(track, t, a) <==> IsFirstAfter(track, t, a) { FirstFromIs(track, t, a); }
    forall b | LastUpTo(track, t, b) ensures 0 <= b < |track| && track[b].takenAt.Some? { InTrack(track, t, b, b); }
    forall a | FirstFrom(track, t, a) ensures 0 <= a < |track| && track[a].takenAt.Some? { InTrack(track, t, a, a); }
  }

  lemma InTrack(track: seq<Photo>, t: int, b: int, a: int)
    ensures LastUpTo(track, t, b) ==> 0 <= b < |track| && track[b].takenAt.Some?
    ensures FirstFrom(track, t, a) ==> 0 <= a < |track| && track[a].takenAt.Some?
  {}

  lemma OneFolderIs(photos: seq<Photo>, rules: Rules, k: nat, place: PlaceId)
    requires k < |photos|
    ensures OneFolder(photos, rules, k, place) <==> Follows(photos, rules, k, place)
  {
    assert forall i :: Alike(photos, rules, k, i) <==> Resembles(photos, rules, k, i);
  }

  lemma PutIsPlaced(photos: seq<Photo>, rules: Rules, k: nat, place: PlaceId)
    requires SortedById(photos) && k < |photos| && HasAnchor([], photos, place)
    ensures PlacedFrom(photos, rules.similarity, photos[k], Put(photos, rules, k, place)[k], place)
    ensures |Put(photos, rules, k, place)| == |photos|
    ensures forall i | 0 <= i < |photos| && i != k :: Put(photos, rules, k, place)[i] == photos[i]
  {
    hide Put;
    var a := NearestExists(photos, rules.similarity, place, photos[k].id);
    PutIs(photos, rules, k, place, a);
    assert forall b | 0 <= b < |photos| && photos[b].origin == Exif && photos[b].place == Some(place) ::
        IsAnchor([], photos, place, b);
  }

  /** The first rule, photo by photo, against the photos as they were when the round began. */
  lemma TimeRule(track: seq<Photo>, rules: Rules, k: nat)
    requires SortedById(track) && Grounded(track, [], []) && k < |track|
    ensures var after := TimePass(track, rules, |track|)[k];
            if Waits(rules, track[k]) && track[k].takenAt.Some?
               && exists place :: Between(track, rules.gap, track[k].takenAt.value, place)
            then exists place :: Between(track, rules.gap, track[k].takenAt.value, place)
                                 && PlacedFrom(track, rules.similarity, track[k], after, place)
            else after == track[k]
  {
    hide Grounded, Interpolates, Between, PlacedFrom, TimePass, Put, HasAnchor;
    TimePassLocal(track, rules, k, |track|);
    TimePassLocal(track, rules, k, k);
    TimeStepIs(track, rules, k);
    var before := TimePass(track, rules, k);
    TimePassAssigns(track, rules, k);
    AssignedGrounded(track, before, rules);
    if track[k].takenAt.Some? {
      forall place ensures Between(track, rules.gap, track[k].takenAt.value, place)
                           <==> Interpolates(track, rules.gap, track[k].takenAt.value, place)
      {
        BetweenIs(track, rules.gap, track[k].takenAt.value, place);
      }
    }
    if TimePlace(track, rules, track[k]).Some? {
      var place := TimePlace(track, rules, track[k]).value;
      TimePlaceAnchored(track, before, rules, track[k]);
      PutIsPlaced(before, rules, k, place);
      if IsTarget(rules, track[k]) {
        PlacedAlike(track, before, rules, track[k], Put(before, rules, k, place)[k], place);
      }
    }
  }

  /** A pass touches a photo only at its own turn. */
  lemma {:induction false} TimePassLocal(track: seq<Photo>, rules: Rules, k: nat, n: nat)
    requires k < |track| && n <= |track|
    ensures TimePass(track, rules, n)[k] == if n <= k then track[k] else TimePass(track, rules, k + 1)[k]
    decreases n
  {
    hide TimePlace;
    if n > 0 {
      TimePassLocal(track, rules, k, n - 1);
      PutLocal(TimePass(track, rules, n - 1), rules, n - 1, TimePlace(track, rules, TimePass(track, rules, n - 1)[n - 1]));
    }
  }

  lemma PutLocal(photos: seq<Photo>, rules: Rules, k: nat, place: Option<PlaceId>)
    requires k < |photos|
    ensures |PutIf(photos, rules, k, place)| == |photos|
    ensures forall i | 0 <= i < |photos| && i != k :: PutIf(photos, rules, k, place)[i] == photos[i]
  {}

  /** Photos placed meanwhile give no coordinates. */
  lemma PlacedAlike(track: seq<Photo>, now: seq<Photo>, rules: Rules, before: Photo, after: Photo, place: PlaceId)
    requires Assigned(track, now, rules) && Grounded(track, [], []) && PlacedFrom(now, rules.similarity, before, after, place)
    ensures PlacedFrom(track, rules.similarity, before, after, place)
  {
    GroundedPhotosOk(track);
    forall a ensures IsAnchor([], track, place, a) <==> IsAnchor([], now, place, a)
      ensures IsAnchor([], now, place, a) ==> now[a] == track[a]
    {
      AnchorStays([], track, now, place, a);
    }
    var a :|
      && 0 <= a < |now| && now[a].origin == Exif && now[a].place == Some(place)
      && (forall b | 0 <= b < |now| && now[b].origin == Exif && now[b].place == Some(place) ::
            rules.similarity(now[b].id, before.id) < rules.similarity(now[a].id, before.id)
            || (rules.similarity(now[b].id, before.id) == rules.similarity(now[a].id, before.id) && now[a].id <= now[b].id))
      && after == before.(place := Some(place), spot := now[a].spot, origin := Inferred, issue := Option.None);
    assert IsAnchor([], now, place, a);
    forall b | 0 <= b < |track| && track[b].origin == Exif && track[b].place == Some(place)
      ensures rules.similarity(track[b].id, before.id) < rules.similarity(track[a].id, before.id)
              || (rules.similarity(track[b].id, before.id) == rules.similarity(track[a].id, before.id)
                  && track[a].id <= track[b].id)
    {
      assert IsAnchor([], track, place, b);
      assert now[b] == track[b];
    }
  }

  /** The second rule, one photo further: it sees what it has placed so far. */
  lemma SimilarRule(photos: seq<Photo>, rules: Rules, k: nat)
    requires SortedById(photos) && Grounded(photos, [], []) && k < |photos|
    ensures var now, next := SimilarPass(photos, rules, k), SimilarPass(photos, rules, k + 1);
            && (forall i | 0 <= i < |photos| && i != k :: next[i] == now[i])
            && (if Waits(rules, now[k]) && exists place :: OneFolder(now, rules, k, place)
                then exists place :: OneFolder(now, rules, k, place)
                                     && PlacedFrom(now, rules.similarity, now[k], next[k], place)
                else next[k] == now[k])
  {
    hide Grounded, Follows, OneFolder, PlacedFrom, SimilarPass, Put, HasAnchor;
    var now := SimilarPass(photos, rules, k);
    SimilarStepIs(photos, rules, k);
    SimilarPassAssigns(photos, rules, k);
    AssignedGrounded(photos, now, rules);
    forall place ensures OneFolder(now, rules, k, place) <==> Follows(now, rules, k, place) {
      OneFolderIs(now, rules, k, place);
    }
    if SimilarPlace(now, rules, k).Some? {
      SimilarPlaceAnchored(now, rules, k);
      PutIsPlaced(now, rules, k, SimilarPlace(now, rules, k).value);
    }
  }

  /** In the end no photo that may be placed has agreeing neighbours in time, or look-alikes in one folder only. */
  lemma RulesAreExhausted(photos: seq<Photo>, rules: Rules, k: nat, place: PlaceId)
    requires SortedById(photos) && Grounded(photos, [], []) && k < |photos|
    requires Waits(rules, Settled(photos, rules)[k])
    ensures var r := Settled(photos, rules);
            && (r[k].takenAt.Some? ==> !Between(r, rules.gap, r[k].takenAt.value, place))
            && !OneFolder(r, rules, k, place)
  {
    hide Settled, Grounded, Interpolates, Follows, Between, OneFolder, Assigned;
    var r := Settled(photos, rules);
    SettledIsComplete(photos, rules);
    if r[k].takenAt.Some? { BetweenIs(r, rules.gap, r[k].takenAt.value, place); }
    OneFolderIs(r, rules, k, place);
  }

  // ---------- The whole answer, errors included

  /** A rule has named a folder for a target, and the folder has no GPS photo to take coordinates from. */
  ghost predicate StuckAt(photos: seq<Photo>, rules: Rules, k: nat, place: Option<PlaceId>)
    requires k < |photos|
  {
    IsTarget(rules, photos[k]) && place.Some? && !HasAnchor([], photos, place.value)
  }

  ghost predicate TimeStuck(track: seq<Photo>, rules: Rules, n: nat)
    requires n <= |track|
  {
    n > 0
    && (|| TimeStuck(track, rules, n - 1)
        || var now := TimePass(track, rules, n - 1); StuckAt(now, rules, n - 1, TimePlace(track, rules, now[n - 1])))
  }

  ghost predicate SimilarStuck(photos: seq<Photo>, rules: Rules, n: nat)
    requires n <= |photos|
  {
    n > 0
    && (|| SimilarStuck(photos, rules, n - 1)
        || var now := SimilarPass(photos, rules, n - 1); StuckAt(now, rules, n - 1, SimilarPlace(now, rules, n - 1)))
  }

  ghost predicate RoundStuck(photos: seq<Photo>, rules: Rules) {
    TimeStuck(photos, rules, |photos|) || SimilarStuck(TimePass(photos, rules, |photos|), rules, |photos|)
  }

  /** Some round on the way meets a folder without a GPS photo. */
  ghost predicate GetsStuck(photos: seq<Photo>, rules: Rules)
    decreases Waiting(photos, rules)
  {
    RoundShrinks(photos, rules);
    RoundStuck(photos, rules) || (Round(photos, rules) != photos && GetsStuck(Round(photos, rules), rules))
  }

  /** Thresholds out of range, or an embedding missing where one is needed. */
  ghost predicate Rejected(photos: seq<Photo>, rules: Rules) {
    || !(-1.0 <= rules.minSim <= 1.0) || rules.gap < 0
    || ((exists p :: p in photos && IsTarget(rules, p))
        && exists p :: p in photos && (p.place.Some? || IsTarget(rules, p)) && !p.embedded)
  }

  /** `Invalid` and `NoGpsPhoto` stand for the two kinds of `PipelineError`. */
  datatype Answer = Invalid | NoGpsPhoto | Finished(photos: seq<Photo>, placed: int)

  /** The answer for photos in ID order. */
  ghost function AnswerInOrder(photos: seq<Photo>, rules: Rules): Answer {
    if Rejected(photos, rules) then Invalid
    else if GetsStuck(photos, rules) then NoGpsPhoto
    else
      var r := Settled(photos, rules);
      Finished(r, Waiting(photos, rules) - Waiting(r, rules))
  }

  ghost predicate InIdOrder(photos: seq<Photo>, sorted: seq<Photo>) {
    SortedById(sorted) && multiset(sorted) == multiset(photos)
  }

  /** The answer of `assign_unlocated` for photos as they come. */
  ghost predicate IsAnswer(photos: seq<Photo>, rules: Rules, answer: Answer) {
    exists sorted :: InIdOrder(photos, sorted) && answer == AnswerInOrder(sorted, rules)
  }

  /** Photos that come in another order get the same answer: the same error, or the same photos and count. */
  lemma OrderDoesNotMatter(a: seq<Photo>, b: seq<Photo>, rules: Rules, x: Answer, y: Answer)
    requires multiset(a) == multiset(b) && IsAnswer(a, rules, x) && IsAnswer(b, rules, y)
    ensures x == y
  {
    hide AnswerInOrder;
    var s :| InIdOrder(a, s) && x == AnswerInOrder(s, rules);
    var t :| InIdOrder(b, t) && y == AnswerInOrder(t, rules);
    OneOrder(s, t);
  }

  /** Photos with distinct IDs have an answer; it is `Invalid` exactly where the photos as they come are rejected. */
  lemma AnswerExists(photos: seq<Photo>, rules: Rules) returns (answer: Answer)
    requires DistinctIds(photos)
    ensures IsAnswer(photos, rules, answer) && (answer == Invalid <==> Rejected(photos, rules))
  {
    hide GetsStuck, Settled, IsTarget;
    var sorted := OrderExists(photos);
    SameRejection(photos, sorted, rules);
    answer := AnswerInOrder(sorted, rules);
  }

  lemma SameElements<T>(a: seq<T>, b: seq<T>, p: T)
    requires multiset(a) == multiset(b)
    ensures p in a <==> p in b
  {
    assert p in a <==> p in multiset(a);
    assert p in b <==> p in multiset(b);
  }

  lemma SameRejection(a: seq<Photo>, b: seq<Photo>, rules: Rules)
    requires multiset(a) == multiset(b)
    ensures Rejected(a, rules) <==> Rejected(b, rules)
  {
    forall p ensures p in a <==> p in b { SameElements(a, b, p); }
  }

  lemma {:induction false} OrderExists(photos: seq<Photo>) returns (sorted: seq<Photo>)
    requires DistinctIds(photos)
    ensures InIdOrder(photos, sorted)
    decreases |photos|
  {
    if photos == [] {
      sorted := [];
    } else {
      var n := |photos| - 1;
      var rest := OrderExists(photos[..n]);
      assert photos == photos[..n] + [photos[n]];
      forall q | q in rest ensures q.id != photos[n].id {
        SameElements(photos[..n], rest, q);
        var i :| 0 <= i < n && photos[..n][i] == q;
      }
      sorted := Insertion(rest, photos[n]);
    }
  }

  lemma {:induction false} Insertion(sorted: seq<Photo>, p: Photo) returns (longer: seq<Photo>)
    requires SortedById(sorted) && forall q | q in sorted :: q.id != p.id
    ensures SortedById(longer) && multiset(longer) == multiset(sorted) + multiset{p}
    ensures forall q :: q in longer <==> q in sorted || q == p
    decreases |sorted|
  {
    var n := |sorted| - 1;
    if sorted == [] || sorted[n].id < p.id {
      longer := sorted + [p];
    } else {
      assert sorted[n] in sorted;
      assert sorted == sorted[..n] + [sorted[n]];
      var front := Insertion(sorted[..n], p);
      longer := front + [sorted[n]];
      forall i | 0 <= i < |front| ensures front[i].id < sorted[n].id {
        assert front[i] in front;
        if front[i] in sorted[..n] { var j :| 0 <= j < n && sorted[..n][j] == front[i]; }
      }
    }
  }

  lemma {:induction false} TimeNotStuck(track: seq<Photo>, rules: Rules, n: nat)
    requires n <= |track| && Grounded(track, [], [])
    ensures !TimeStuck(track, rules, n)
    decreases n
  {
    hide Assigned, TimePass, TimePlace, HasAnchor, Grounded, IsTarget;
    if n > 0 {
      TimeNotStuck(track, rules, n - 1);
      var now := TimePass(track, rules, n - 1);
      TimePassAssigns(track, rules, n - 1);
      if TimePlace(track, rules, now[n - 1]).Some? { TimePlaceAnchored(track, now, rules, now[n - 1]); }
    }
  }

  lemma {:induction false} SimilarNotStuck(photos: seq<Photo>, rules: Rules, n: nat)
    requires n <= |photos| && Grounded(photos, [], [])
    ensures !SimilarStuck(photos, rules, n)
    decreases n
  {
    hide Assigned, SimilarPass, SimilarPlace, HasAnchor, Grounded, IsTarget;
    if n > 0 {
      SimilarNotStuck(photos, rules, n - 1);
      var now := SimilarPass(photos, rules, n - 1);
      SimilarPassAssigns(photos, rules, n - 1);
      AssignedGrounded(photos, now, rules);
      if SimilarPlace(now, rules, n - 1).Some? { SimilarPlaceAnchored(now, rules, n - 1); }
    }
  }

  /** Where every folder has a GPS photo of its own, the rules never get stuck. */
  lemma {:induction false} NeverStuck(photos: seq<Photo>, rules: Rules)
    requires Grounded(photos, [], [])
    ensures !GetsStuck(photos, rules)
    decreases Waiting(photos, rules)
  {
    hide Grounded, Round, Assigned, TimeStuck, SimilarStuck, TimePass;
    RoundShrinks(photos, rules);
    TimeNotStuck(photos, rules, |photos|);
    var mid := TimePass(photos, rules, |photos|);
    TimePassAssigns(photos, rules, |photos|);
    AssignedGrounded(photos, mid, rules);
    SimilarNotStuck(mid, rules, |photos|);
    if Round(photos, rules) != photos {
      RoundAssigns(photos, rules);
      AssignedGrounded(photos, Round(photos, rules), rules);
      NeverStuck(Round(photos, rules), rules);
    }
  }

  // ---------- The step itself

  method SortById(photos: seq<Photo>) returns (ordered: array<Photo>)
    requires DistinctIds(photos)
    ensures fresh(ordered) && SortedById(ordered[..]) && multiset(ordered[..]) == multiset(photos)
  {
    var sorted: seq<Photo> := [];
    for i := 0 to |photos|
      invariant SortedById(sorted) && multiset(sorted) == multiset(photos[..i])
    {
      assert photos[..i + 1] == photos[..i] + [photos[i]];
      assert forall k | 0 <= k < |sorted| :: sorted[k].id != photos[i].id by {
        forall k | 0 <= k < |sorted| ensures sorted[k].id != photos[i].id {
          assert sorted[k] in multiset(photos[..i]);
          var m :| 0 <= m < i && photos[m] == sorted[k];
        }
      }
      sorted := InsertById(sorted, photos[i]);
    }
    assert photos[..|photos|] == photos;
    ordered := new Photo[|sorted|](i requires 0 <= i < |sorted| => sorted[i]);
    assert ordered[..] == sorted;
  }

  method LastBefore(track: seq<Photo>, t: int) returns (b: Option<nat>)
    ensures b.Some? ==> IsLastBefore(track, t, b.value)
    ensures b.None? ==> forall c :: !IsLastBefore(track, t, c)
  {
    b := Option.None;
    for i := 0 to |track|
      invariant b.None? ==> forall c | 0 <= c < i && Timed(track[c]) :: track[c].takenAt.value > t
      invariant b.Some? ==>
                  && b.value < i && Timed(track[b.value]) && track[b.value].takenAt.value <= t
                  && forall c | 0 <= c < i && Timed(track[c]) && track[c].takenAt.value <= t :: NotLater(track[c], track[b.value])
    {
      if Timed(track[i]) && track[i].takenAt.value <= t && (b.None? || NotLater(track[b.value], track[i])) {
        b := Some(i);
      }
    }
  }

  method FirstAfter(track: seq<Photo>, t: int) returns (a: Option<nat>)
    ensures a.Some? ==> IsFirstAfter(track, t, a.value)
    ensures a.None? ==> forall c :: !IsFirstAfter(track, t, c)
  {
    a := Option.None;
    for i := 0 to |track|
      invariant a.None? ==> forall c | 0 <= c < i && Timed(track[c]) :: track[c].takenAt.value < t
      invariant a.Some? ==>
                  && a.value < i && Timed(track[a.value]) && track[a.value].takenAt.value >= t
                  && forall c | 0 <= c < i && Timed(track[c]) && track[c].takenAt.value >= t :: NotLater(track[a.value], track[c])
    {
      if Timed(track[i]) && track[i].takenAt.value >= t && (a.None? || NotLater(track[i], track[a.value])) {
        a := Some(i);
      }
    }
  }

  method Interpolate(track: seq<Photo>, rules: Rules, p: Photo) returns (place: Option<PlaceId>)
    requires SortedById(track)
    ensures place == TimePlace(track, rules, p)
  {
    if p.takenAt.None? { return Option.None; }
    var t := p.takenAt.value;
    var b := LastBefore(track, t);
    var a := FirstAfter(track, t);
    if b.None? || a.None? { return Option.None; }
    ghost var name := TimePlace(track, rules, p);
    if track[b.value].place == track[a.value].place
       && t - track[b.value].takenAt.value <= rules.gap && track[a.value].takenAt.value - t <= rules.gap
    {
      place := track[b.value].place;
      assert Interpolates(track, rules.gap, t, place.value);
      InterpolatesOnce(track, rules.gap, t, place.value, name.value);
    } else {
      NotInterpolated(track, rules.gap, t, b.value, a.value);
      place := Option.None;
    }
  }

  lemma NotInterpolated(track: seq<Photo>, gap: int, t: int, b: nat, a: nat)
    requires SortedById(track) && IsLastBefore(track, t, b) && IsFirstAfter(track, t, a)
    requires track[b].place != track[a].place || t - track[b].takenAt.value > gap || track[a].takenAt.value - t > gap
    ensures forall place :: !Interpolates(track, gap, t, place)
  {
    forall c | IsLastBefore(track, t, c) ensures c == b {
      assert NotLater(track[b], track[c]) && NotLater(track[c], track[b]);
    }
    forall c | IsFirstAfter(track, t, c) ensures c == a {
      assert NotLater(track[a], track[c]) && NotLater(track[c], track[a]);
    }
  }

  method Follow(photos: array<Photo>, rules: Rules, k: nat) returns (place: Option<PlaceId>)
    requires k < photos.Length
    ensures place == SimilarPlace(photos[..], rules, k)
  {
    var folders: set<PlaceId> := {};
    place := Option.None;
    for i := 0 to photos.Length
      invariant place.None? ==> folders == {}
      invariant place.Some? ==> place.value in folders && exists m :: m < i && Resembles(photos[..], rules, k, m) && photos[m].place == place
      invariant forall m | m < i && Resembles(photos[..], rules, k, m) :: photos[m].place.value in folders
      invariant forall f | f in folders :: exists m :: m < i && Resembles(photos[..], rules, k, m) && photos[m].place == Some(f)
    {
      if i != k && photos[i].place.Some? && rules.similarity(photos[i].id, photos[k].id) >= rules.minSim {
        assert Resembles(photos[..], rules, k, i);
        folders := folders + {photos[i].place.value};
        place := photos[i].place;
      }
    }
    if place.Some? {
      if folders != {place.value} {
        var other :| other in folders && other != place.value;
        assert forall f :: !Follows(photos[..], rules, k, f);
        place := Option.None;
      } else {
        assert Follows(photos[..], rules, k, place.value);
      }
    }
  }

  lemma PutIs(photos: seq<Photo>, rules: Rules, k: nat, place: PlaceId, a: int)
    requires SortedById(photos) && k < |photos|
    requires IsNearest([], photos, rules.similarity, place, photos[k].id, a)
    ensures Put(photos, rules, k, place) == photos[k := Placed(photos[k], place, photos[a].spot)]
    ensures SortedById(Put(photos, rules, k, place))
  {
    assert IsAnchor([], photos, place, a);
    forall b | IsNearest([], photos, rules.similarity, place, photos[k].id, b) ensures b == a {
      OneNearest(photos, rules.similarity, place, photos[k].id, a, b);
    }
  }

  lemma OneNearest(photos: seq<Photo>, similarity: Similarity, place: PlaceId, id: int, a: int, b: int)
    requires SortedById(photos)
    requires IsNearest([], photos, similarity, place, id, a) && IsNearest([], photos, similarity, place, id, b)
    ensures a == b
  {
    assert IsAnchor([], photos, place, a) && IsAnchor([], photos, place, b);
    assert AsGood(similarity, photos[a], photos[b], id);
    assert AsGood(similarity, photos[b], photos[a], id);
  }

  /** `_place`; false stands for `PipelineError`: the folder has no GPS photo. */
  method PutPhoto(photos: array<Photo>, rules: Rules, k: nat, place: PlaceId) returns (ok: bool)
    requires SortedById(photos[..]) && k < photos.Length
    modifies photos
    ensures ok <==> HasAnchor([], old(photos[..]), place)
    ensures photos[..] == Put(old(photos[..]), rules, k, place) && SortedById(photos[..])
  {
    ghost var was := photos[..];
    var best: Option<nat> := Option.None;
    for i := 0 to photos.Length
      invariant photos[..] == was
      invariant best.None? ==> forall b | 0 <= b < i :: !IsAnchor([], was, place, b)
      invariant best.Some? ==>
                  && best.value < i && IsAnchor([], was, place, best.value)
                  && forall b | 0 <= b < i && IsAnchor([], was, place, b) ::
                       AsGood(rules.similarity, was[best.value], was[b], was[k].id)
    {
      if photos[i].origin == Exif && photos[i].place == Some(place) &&
         (best.None? || !AsGood(rules.similarity, photos[best.value], photos[i], photos[k].id))
      {
        best := Some(i);
      }
    }
    if best.None? { return false; }
    PutIs(was, rules, k, place, best.value);
    photos[k] := Placed(photos[k], place, photos[best.value].spot);
    ok := true;
  }

  /** Apply what a rule says to one photo. */
  method PutPhotoIf(photos: array<Photo>, rules: Rules, k: nat, place: Option<PlaceId>) returns (moved: bool, ok: bool)
    requires SortedById(photos[..]) && k < photos.Length && IsTarget(rules, photos[k])
    modifies photos
    ensures ok <==> !StuckAt(old(photos[..]), rules, k, place)
    ensures ok ==> photos[..] == PutIf(old(photos[..]), rules, k, place) && SortedById(photos[..])
    ensures ok ==> (moved <==> photos[..] != old(photos[..]))
    ensures ok ==> Waiting(photos[..], rules) == Waiting(old(photos[..]), rules) - (if moved then 1 else 0)
  {
    if place.None? { return false, true; }
    ghost var was := photos[..];
    ok := PutPhoto(photos, rules, k, place.value);
    moved := ok;
    if ok {
      PutMoves(was, rules, k, place.value);
      PutWaiting(was, rules, k, place.value);
    }
  }

  lemma PutWaiting(photos: seq<Photo>, rules: Rules, k: nat, place: PlaceId)
    requires k < |photos| && IsTarget(rules, photos[k]) && Put(photos, rules, k, place) != photos
    ensures Waiting(Put(photos, rules, k, place), rules) == Waiting(photos, rules) - 1
  {
    var a :| IsNearest([], photos, rules.similarity, place, photos[k].id, a) &&
             Put(photos, rules, k, place) == photos[k := Placed(photos[k], place, photos[a].spot)];
    WaitingUpdate(photos, rules, k, Placed(photos[k], place, photos[a].spot));
  }

  lemma TimePlaceAnchored(track: seq<Photo>, now: seq<Photo>, rules: Rules, p: Photo)
    requires Grounded(track, [], []) && Assigned(track, now, rules) && TimePlace(track, rules, p).Some?
    ensures HasAnchor([], now, TimePlace(track, rules, p).value)
  {
    var place := TimePlace(track, rules, p).value;
    var b :| IsLastBefore(track, p.takenAt.value, b) && track[b].place == Some(place);
    UsedHasAnchor(track, b);
    var a :| IsAnchor([], track, place, a);
    AnchorStays([], track, now, place, a);
  }

  lemma SimilarPlaceAnchored(photos: seq<Photo>, rules: Rules, k: nat)
    requires Grounded(photos, [], []) && k < |photos| && SimilarPlace(photos, rules, k).Some?
    ensures HasAnchor([], photos, SimilarPlace(photos, rules, k).value)
  {
    var i :| Resembles(photos, rules, k, i);
    UsedHasAnchor(photos, i);
  }

  method TimeLoop(photos: array<Photo>, rules: Rules) returns (count: nat, ok: bool)
    requires SortedById(photos[..])
    modifies photos
    ensures ok <==> !TimeStuck(old(photos[..]), rules, photos.Length)
    ensures ok ==> photos[..] == TimePass(old(photos[..]), rules, photos.Length) && SortedById(photos[..])
    ensures ok ==> count == Waiting(old(photos[..]), rules) - Waiting(photos[..], rules)
    ensures ok ==> (count == 0 ==> photos[..] == old(photos[..]))
  {
    hide Grounded, Assigned, TimePlace, PutIf, IsTarget, TimePass, Waiting, HasAnchor, TimeStuck, StuckAt;
    var track := photos[..];
    count, ok := 0, true;
    TimePassStarts(track, rules);
    NothingStuck(track, rules);
    for k := 0 to photos.Length
      invariant ok && photos[..] == TimePass(track, rules, k) && SortedById(photos[..]) && !TimeStuck(track, rules, k)
      invariant count == Waiting(track, rules) - Waiting(photos[..], rules)
      invariant count == 0 ==> photos[..] == track
    {
      ghost var before := photos[..];
      TimeStepIs(track, rules, k);
      TimeStuckNext(track, rules, k);
      if IsTarget(rules, photos[k]) {
        var place := Interpolate(track, rules, photos[k]);
        var moved;
        moved, ok := PutPhotoIf(photos, rules, k, place);
        if !ok {
          TimeStaysStuck(track, rules, k + 1, photos.Length);
          return;
        }
        if moved { count := count + 1; }
      } else {
        NotATarget(before, rules, k, TimePlace(track, rules, before[k]));
      }
    }
  }

  lemma NotATarget(photos: seq<Photo>, rules: Rules, k: nat, place: Option<PlaceId>)
    requires k < |photos| && !IsTarget(rules, photos[k])
    ensures PutIf(photos, rules, k, place) == photos && !StuckAt(photos, rules, k, place)
  {}

  lemma NothingStuck(photos: seq<Photo>, rules: Rules)
    ensures !TimeStuck(photos, rules, 0) && !SimilarStuck(photos, rules, 0)
  {}

  lemma {:induction false} TimeStaysStuck(track: seq<Photo>, rules: Rules, n: nat, m: nat)
    requires n <= m <= |track| && TimeStuck(track, rules, n)
    ensures TimeStuck(track, rules, m)
    decreases m
  {
    hide StuckAt, TimePlace;
    if n < m { TimeStaysStuck(track, rules, n, m - 1); }
  }

  lemma {:induction false} SimilarStaysStuck(photos: seq<Photo>, rules: Rules, n: nat, m: nat)
    requires n <= m <= |photos| && SimilarStuck(photos, rules, n)
    ensures SimilarStuck(photos, rules, m)
    decreases m
  {
    hide StuckAt, SimilarPlace;
    if n < m { SimilarStaysStuck(photos, rules, n, m - 1); }
  }

  lemma TimeStuckNext(track: seq<Photo>, rules: Rules, k: nat)
    requires k < |track|
    ensures var now := TimePass(track, rules, k);
            TimeStuck(track, rules, k + 1) <==>
            TimeStuck(track, rules, k) || StuckAt(now, rules, k, TimePlace(track, rules, now[k]))
  {
    hide StuckAt, TimePlace;
  }

  lemma SimilarStuckNext(photos: seq<Photo>, rules: Rules, k: nat)
    requires k < |photos|
    ensures var now := SimilarPass(photos, rules, k);
            SimilarStuck(photos, rules, k + 1) <==>
            SimilarStuck(photos, rules, k) || StuckAt(now, rules, k, SimilarPlace(now, rules, k))
  {
    hide StuckAt, SimilarPlace;
  }

  method SimilarLoop(photos: array<Photo>, rules: Rules) returns (count: nat, ok: bool)
    requires SortedById(photos[..])
    modifies photos
    ensures ok <==> !SimilarStuck(old(photos[..]), rules, photos.Length)
    ensures ok ==> photos[..] == SimilarPass(old(photos[..]), rules, photos.Length) && SortedById(photos[..])
    ensures ok ==> count == Waiting(old(photos[..]), rules) - Waiting(photos[..], rules)
    ensures ok ==> (count == 0 ==> photos[..] == old(photos[..]))
  {
    hide Grounded, Assigned, SimilarPlace, PutIf, IsTarget, SimilarPass, Waiting, HasAnchor, SimilarStuck, StuckAt;
    ghost var was := photos[..];
    count, ok := 0, true;
    TimePassStarts(was, rules);
    NothingStuck(was, rules);
    for k := 0 to photos.Length
      invariant ok && photos[..] == SimilarPass(was, rules, k) && SortedById(photos[..]) && !SimilarStuck(was, rules, k)
      invariant count == Waiting(was, rules) - Waiting(photos[..], rules)
      invariant count == 0 ==> photos[..] == was
    {
      ghost var before := photos[..];
      SimilarStepIs(was, rules, k);
      SimilarStuckNext(was, rules, k);
      if IsTarget(rules, photos[k]) {
        var place := Follow(photos, rules, k);
        var moved;
        moved, ok := PutPhotoIf(photos, rules, k, place);
        if !ok {
          SimilarStaysStuck(was, rules, k + 1, photos.Length);
          return;
        }
        if moved { count := count + 1; }
      } else {
        NotATarget(before, rules, k, SimilarPlace(before, rules, k));
      }
    }
  }

  method Check(ordered: array<Photo>, rules: Rules) returns (ok: bool)
    ensures ok <==> !Rejected(ordered[..], rules)
  {
    if !(-1.0 <= rules.minSim <= 1.0) || rules.gap < 0 { return false; }
    var targets, missing := false, false;
    for k := 0 to ordered.Length
      invariant targets <==> exists p :: p in ordered[..k] && IsTarget(rules, p)
      invariant missing <==> exists p :: p in ordered[..k] && (p.place.Some? || IsTarget(rules, p)) && !p.embedded
    {
      assert ordered[..k + 1] == ordered[..k] + [ordered[k]];
      if IsTarget(rules, ordered[k]) { targets := true; }
      if (ordered[k].place.Some? || IsTarget(rules, ordered[k])) && !ordered[k].embedded { missing := true; }
    }
    assert ordered[..ordered.Length] == ordered[..];
    ok := !(targets && missing);
  }

  /**
   `assign_unlocated`: alternate the two rules until a round changes nothing.  When it raises in
   the middle of a round, the photos are left as they are then.
   */
  method AssignUnlocated(photos: seq<Photo>, rules: Rules) returns (ordered: array<Photo>, placed: nat, ok: bool)
    requires DistinctIds(photos)
    ensures fresh(ordered)
    ensures ok ==> IsAnswer(photos, rules, Finished(ordered[..], placed))
    ensures !ok ==> IsAnswer(photos, rules, Invalid) || IsAnswer(photos, rules, NoGpsPhoto)
  {
    hide Settled, Round, Waiting, TimePass, SimilarPass, GetsStuck, RoundStuck, TimeStuck, SimilarStuck, Rejected;
    ordered := SortById(photos);
    placed := 0;
    ghost var start := ordered[..];
    assert InIdOrder(photos, start);
    ok := Check(ordered, rules);
    if !ok {
      assert Invalid == AnswerInOrder(start, rules);
      return;
    }
    var changed := true;
    while changed
      invariant ok && SortedById(ordered[..])
      invariant Settled(ordered[..], rules) == Settled(start, rules)
      invariant GetsStuck(ordered[..], rules) == GetsStuck(start, rules)
      invariant placed == Waiting(start, rules) - Waiting(ordered[..], rules)
      invariant !changed ==> ordered[..] == Settled(start, rules) && !GetsStuck(start, rules)
      decreases changed, Waiting(ordered[..], rules)
    {
      ghost var before := ordered[..];
      RoundShrinks(before, rules);
      Unfolded(before, rules);
      var n, m;
      n, ok := TimeLoop(ordered, rules);
      if ok { m, ok := SimilarLoop(ordered, rules); }
      if !ok {
        assert NoGpsPhoto == AnswerInOrder(start, rules);
        return;
      }
      placed := placed + n + m;
      changed := n + m > 0;
    }
    assert Finished(ordered[..], placed) == AnswerInOrder(start, rules);
  }

  /** One round of the two recursions. */
  lemma Unfolded(photos: seq<Photo>, rules: Rules)
    ensures Settled(photos, rules) == if Round(photos, rules) == photos then photos else Settled(Round(photos, rules), rules)
    ensures GetsStuck(photos, rules) <==>
            RoundStuck(photos, rules) || (Round(photos, rules) != photos && GetsStuck(Round(photos, rules), rules))
    ensures var mid := TimePass(photos, rules, |photos|);
            && Round(photos, rules) == SimilarPass(mid, rules, |photos|)
            && (RoundStuck(photos, rules) <==> TimeStuck(photos, rules, |photos|) || SimilarStuck(mid, rules, |photos|))
  {
    hide TimePass, SimilarPass, TimeStuck, SimilarStuck, Waiting;
  }
}
