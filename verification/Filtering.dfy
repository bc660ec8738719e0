/**
 Blur and duplicate detection per folder (app/pipeline/steps/filtering.py), and the release of
 folders that would show nothing (`release_unshowable_new_places` in app/pipeline/agent/trip.py).
 */
module Filtering {
  import opened Sets
  import opened Wrappers
  import opened Photos

  /** Laplacian variance and perceptual hash of a photo. */
  datatype Metric = Metric(variance: real, hash: nat)

  datatype Tuning = Tuning(blurMin: real, maxDistance: int, distance: (nat, nat) -> int)

  // ---------- Order within a folder

  /** `_order`: known times first, then by time, then by photo ID. */
  predicate Precedes(p: Photo, q: Photo) {
    if p.takenAt.None? || q.takenAt.None? then
      if p.takenAt.None? && q.takenAt.None? then p.id < q.id else q.takenAt.None?
    else p.takenAt.value < q.takenAt.value || (p.takenAt.value == q.takenAt.value && p.id < q.id)
  }

  /** CLOCK has decided, and consistently. */
  predicate TimeDecided(p: Photo) {
    p.timeStatus != Pending && (p.timeStatus == NoTime <==> p.takenAt.None?)
  }

  ghost predicate InOrder(photos: seq<Photo>, group: seq<nat>) {
    && (forall i | 0 <= i < |group| :: group[i] < |photos|)
    && (forall i, j | 0 <= i < j < |group| :: Precedes(photos[group[i]], photos[group[j]]))
  }

  lemma PrecedesChain(p: Photo, q: Photo, r: Photo)
    requires Precedes(p, q) && Precedes(q, r)
    ensures Precedes(p, r)
  {}

  lemma PrecedesIsTotal(p: Photo, q: Photo)
    requires p.id != q.id
    ensures Precedes(p, q) <==> !Precedes(q, p)
  {}

  /** Known times before unknown ones, earlier before later, and by photo ID where that does not decide. */
  predicate TakenFirst(p: Photo, q: Photo) {
    && (q.takenAt.Some? ==> p.takenAt.Some? && p.takenAt.value <= q.takenAt.value)
    && (p.takenAt == q.takenAt ==> p.id < q.id)
  }

  lemma PrecedesIsTakenFirst(p: Photo, q: Photo)
    ensures Precedes(p, q) <==> TakenFirst(p, q)
  {}

  lemma InsertedInOrder(photos: seq<Photo>, group: seq<nat>, k: nat, i: nat)
    requires InOrder(photos, group) && k < |photos| && i <= |group|
    requires forall m | 0 <= m < i :: Precedes(photos[group[m]], photos[k])
    requires forall m | i <= m < |group| :: Precedes(photos[k], photos[group[m]])
    ensures InOrder(photos, group[..i] + [k] + group[i..])
  {
    hide Precedes;
    var longer := group[..i] + [k] + group[i..];
    forall p | 0 <= p < |longer|
      ensures longer[p] == if p < i then group[p] else if p == i then k else group[p - 1]
    {}
  }

  method InsertInOrder(photos: seq<Photo>, group: seq<nat>, k: nat) returns (longer: seq<nat>)
    requires InOrder(photos, group) && k < |photos| && DistinctIds(photos) && k !in group
    ensures InOrder(photos, longer) && forall i :: i in longer <==> i in group || i == k
  {
    hide Precedes;
    var i := 0;
    while i < |group| && Precedes(photos[group[i]], photos[k])
      invariant i <= |group| && forall m | 0 <= m < i :: Precedes(photos[group[m]], photos[k])
    {
      i := i + 1;
    }
    forall m | i <= m < |group| ensures Precedes(photos[k], photos[group[m]]) {
      assert group[i] in group && photos[group[i]].id != photos[k].id;
      PrecedesIsTotal(photos[group[i]], photos[k]);
      if m > i { PrecedesChain(photos[k], photos[group[i]], photos[group[m]]); }
    }
    InsertedInOrder(photos, group, k, i);
    longer := group[..i] + [k] + group[i..];
    assert group == group[..i] + group[i..];
  }

  /** The photos of one folder (or of none), sorted. */
  method Members(photos: seq<Photo>, place: Option<PlaceId>) returns (group: seq<nat>)
    requires DistinctIds(photos)
    ensures InOrder(photos, group)
    ensures forall k: nat :: k in group <==> k < |photos| && photos[k].place == place
  {
    group := [];
    for k := 0 to |photos|
      invariant InOrder(photos, group)
      invariant forall i: nat :: i in group <==> i < k && photos[i].place == place
    {
      if photos[k].place == place { group := InsertInOrder(photos, group, k); }
    }
  }

  // ---------- The verdict on each photo

  /** What a photo that stays keeps: no issue in a folder, an unclear location outside. */
  function KeptIssue(place: Option<PlaceId>): Option<Issue> {
    if place.Some? then Option.None else Some(UnclearLocation)
  }

  predicate Measured(metrics: map<int, Metric>, photos: seq<Photo>) {
    forall k | 0 <= k < |photos| :: photos[k].id in metrics
  }

  predicate IsBlurry(metrics: map<int, Metric>, tuning: Tuning, p: Photo)
    requires p.id in metrics
  {
    metrics[p.id].variance < tuning.blurMin
  }

  predicate Close(metrics: map<int, Metric>, tuning: Tuning, p: Photo, q: Photo)
    requires p.id in metrics && q.id in metrics
  {
    tuning.distance(metrics[p.id].hash, metrics[q.id].hash) <= tuning.maxDistance
  }

  /** Photo o was kept, comes before k in the same folder, and looks like it. */
  ghost predicate Covers(photos: seq<Photo>, metrics: map<int, Metric>, tuning: Tuning, o: int, k: int)
    requires Measured(metrics, photos)
  {
    && 0 <= o < |photos| && 0 <= k < |photos|
    && photos[o].place == photos[k].place && Precedes(photos[o], photos[k])
    && photos[o].issue == KeptIssue(photos[o].place)
    && Close(metrics, tuning, photos[k], photos[o])
  }

  ghost predicate CoversFirst(photos: seq<Photo>, metrics: map<int, Metric>, tuning: Tuning, o: int, k: int)
    requires Measured(metrics, photos)
  {
    && Covers(photos, metrics, tuning, o, k)
    && forall m | Covers(photos, metrics, tuning, m, k) && m != o :: Precedes(photos[o], photos[m])
  }

  /** Blurry, or a duplicate of the first kept photo that looks like it, or kept. */
  ghost predicate Judged(photos: seq<Photo>, metrics: map<int, Metric>, tuning: Tuning, k: int)
    requires Measured(metrics, photos) && 0 <= k < |photos|
  {
    var p := photos[k];
    if IsBlurry(metrics, tuning, p) then
      p.issue == Some(Blurry) && p.duplicateOf == Option.None
    else if exists o :: Covers(photos, metrics, tuning, o, k) then
      && p.issue == Some(Duplicated)
      && exists o :: CoversFirst(photos, metrics, tuning, o, k) && p.duplicateOf == Some(photos[o].id)
    else
      p.issue == KeptIssue(p.place) && p.duplicateOf == Option.None
  }

  predicate OnlyVerdict(before: Photo, after: Photo) {
    after == before.(issue := after.issue, duplicateOf := after.duplicateOf)
  }

  ghost predicate Filtered(before: seq<Photo>, after: seq<Photo>, metrics: map<int, Metric>, tuning: Tuning)
    requires Measured(metrics, before)
  {
    && |after| == |before| && (forall k | 0 <= k < |before| :: OnlyVerdict(before[k], after[k]))
    && Measured(metrics, after)
    && (forall k | 0 <= k < |after| :: Judged(after, metrics, tuning, k))
  }

  // ---------- The verdicts in plain terms

  /** Photo o of the same folder was taken first, has no issue of its own, and its hash is within the distance. */
  ghost predicate KeptLookAlike(photos: seq<Photo>, metrics: map<int, Metric>, tuning: Tuning, o: int, k: int)
    requires forall i | 0 <= i < |photos| :: photos[i].id in metrics
  {
    && 0 <= o < |photos| && 0 <= k < |photos| && photos[o].place == photos[k].place && TakenFirst(photos[o], photos[k])
    && photos[o].issue == (if photos[o].place.Some? then Option.None else Some(UnclearLocation))
    && tuning.distance(metrics[photos[k].id].hash, metrics[photos[o].id].hash) <= tuning.maxDistance
  }

  /**
   Blurry below the threshold; else a duplicate of the kept look-alike taken first, if there is one;
   else kept, without an issue in a folder and with an unclear location outside.
   */
  ghost predicate FairVerdict(before: seq<Photo>, after: seq<Photo>, metrics: map<int, Metric>, tuning: Tuning, k: nat)
    requires |before| == |after| && k < |after| && forall i | 0 <= i < |after| :: after[i].id in metrics
  {
    if metrics[after[k].id].variance < tuning.blurMin then
      after[k] == before[k].(issue := Some(Blurry), duplicateOf := Option.None)
    else if exists o :: KeptLookAlike(after, metrics, tuning, o, k) then
      exists o ::
        && KeptLookAlike(after, metrics, tuning, o, k)
        && (forall m | KeptLookAlike(after, metrics, tuning, m, k) && m != o :: TakenFirst(after[o], after[m]))
        && after[k] == before[k].(issue := Some(Duplicated), duplicateOf := Some(after[o].id))
    else
      after[k] == before[k].(issue := if before[k].place.Some? then Option.None else Some(UnclearLocation),
                             duplicateOf := Option.None)
  }

  /** Every photo has the verdict it deserves. */
  lemma VerdictsAreFair(before: seq<Photo>, after: seq<Photo>, metrics: map<int, Metric>, tuning: Tuning, k: nat)
    requires Measured(metrics, before) && Filtered(before, after, metrics, tuning) && k < |after|
    ensures FairVerdict(before, after, metrics, tuning, k)
  {
    hide Precedes, TakenFirst;
    assert OnlyVerdict(before[k], after[k]) && Judged(after, metrics, tuning, k);
    forall o ensures KeptLookAlike(after, metrics, tuning, o, k) <==> Covers(after, metrics, tuning, o, k) {
      if 0 <= o < |after| { PrecedesIsTakenFirst(after[o], after[k]); }
    }
    forall o, m | 0 <= o < |after| && 0 <= m < |after|
      ensures Precedes(after[o], after[m]) <==> TakenFirst(after[o], after[m])
    {
      PrecedesIsTakenFirst(after[o], after[m]);
    }
  }

  // ---------- What is refused

  predicate TuningOk(tuning: Tuning) {
    tuning.blurMin >= 0.0 && 0 <= tuning.maxDistance <= 64
  }

  predicate PlaceMatchesIssue(p: Photo) {
    if p.place.None? then p.issue.Some? else p.issue != Some(UnclearLocation)
  }

  predicate InputOk(p: Photo, metrics: map<int, Metric>) {
    PlaceMatchesIssue(p) && TimeDecided(p) && p.id in metrics && metrics[p.id].variance >= 0.0
  }

  ghost predicate FilterAccepts(photos: seq<Photo>, metrics: map<int, Metric>, tuning: Tuning) {
    && TuningOk(tuning) && DistinctIds(photos)
    && forall k | 0 <= k < |photos| :: InputOk(photos[k], metrics)
  }

  /** A reason to refuse: thresholds out of range, an ID twice, or a photo undecided, unmeasured or contradictory. */
  ghost predicate Refused(photos: seq<Photo>, metrics: map<int, Metric>, tuning: Tuning) {
    || tuning.blurMin < 0.0 || tuning.maxDistance < 0 || tuning.maxDistance > 64
    || (exists i, j :: 0 <= i < j < |photos| && photos[i].id == photos[j].id)
    || (exists k :: 0 <= k < |photos| && Unfit(photos[k], metrics))
  }

  predicate Unfit(p: Photo, metrics: map<int, Metric>) {
    || (p.place.None? && p.issue.None?) || (p.place.Some? && p.issue == Some(UnclearLocation))
    || p.timeStatus == Pending || (p.timeStatus == NoTime && p.takenAt.Some?) || (p.timeStatus != NoTime && p.takenAt.None?)
    || p.id !in metrics || metrics[p.id].variance < 0.0
  }

  lemma RefusedOrAccepted(photos: seq<Photo>, metrics: map<int, Metric>, tuning: Tuning)
    ensures Refused(photos, metrics, tuning) <==> !FilterAccepts(photos, metrics, tuning)
  {
    assert forall p: Photo :: Unfit(p, metrics) <==> !InputOk(p, metrics);
    hide Unfit, InputOk;
  }

  method CheckInput(photos: seq<Photo>, metrics: map<int, Metric>, tuning: Tuning)
    returns (variances: Outcome<map<int, real>>)
    ensures variances.Done? <==> FilterAccepts(photos, metrics, tuning)
    ensures variances.Failure? <==> Refused(photos, metrics, tuning)
    ensures variances.Done? ==>
              && (forall id :: id in variances.value <==> exists k :: 0 <= k < |photos| && photos[k].id == id)
              && (forall id | id in variances.value :: id in metrics && variances.value[id] == metrics[id].variance)
  {
    hide Refused;
    RefusedOrAccepted(photos, metrics, tuning);
    if !TuningOk(tuning) { return Failure; }
    var seen: map<int, real> := map[];
    for k := 0 to |photos|
      invariant forall i, j | 0 <= i < j < k :: photos[i].id != photos[j].id
      invariant forall i | 0 <= i < k :: InputOk(photos[i], metrics)
      invariant forall id :: id in seen <==> exists i :: 0 <= i < k && photos[i].id == id
      invariant forall id | id in seen :: id in metrics && seen[id] == metrics[id].variance
    {
      if !InputOk(photos[k], metrics) { return Failure; }
      if photos[k].id in seen { return Failure; }
      seen := seen[photos[k].id := metrics[photos[k].id].variance];
    }
    return Done(seen);
  }

  // ---------- One photo at a time

  /** What judging photo k reads of another state of the photos: the verdicts on those before it. */
  lemma JudgedStays(before: seq<Photo>, after: seq<Photo>, metrics: map<int, Metric>, tuning: Tuning, k: int)
    requires Measured(metrics, before) && Measured(metrics, after) && |before| == |after| && 0 <= k < |before|
    requires forall i | 0 <= i < |before| :: OnlyVerdict(before[i], after[i])
    requires after[k] == before[k]
    requires forall o | 0 <= o < |before| && before[o].place == before[k].place && Precedes(before[o], before[k]) ::
               after[o] == before[o]
    requires Judged(before, metrics, tuning, k)
    ensures Judged(after, metrics, tuning, k)
  {
    forall o ensures Covers(before, metrics, tuning, o, k) <==> Covers(after, metrics, tuning, o, k) {
      if 0 <= o < |before| { assert OnlyVerdict(before[o], after[o]); }
    }
    forall o | CoversFirst(before, metrics, tuning, o, k) ensures CoversFirst(after, metrics, tuning, o, k) {
      assert Covers(before, metrics, tuning, o, k);
      forall m | Covers(after, metrics, tuning, m, k) && m != o ensures Precedes(after[o], after[m]) {
        assert Covers(before, metrics, tuning, m, k);
      }
    }
  }

  /** The kept photos of the part of a folder already gone through, in order. */
  ghost predicate Retains(photos: seq<Photo>, group: seq<nat>, j: nat, retained: seq<nat>)
    requires InOrder(photos, group) && j <= |group|
  {
    && InOrder(photos, retained)
    && (forall o :: o in retained <==> o in group[..j] && photos[o].issue == KeptIssue(photos[o].place))
  }

  /** The first kept photo, in order, that looks like photo k. */
  ghost predicate IsOriginal(photos: seq<Photo>, metrics: map<int, Metric>, tuning: Tuning, retained: seq<nat>, k: nat,
                             original: Option<nat>)
    requires Measured(metrics, photos) && InOrder(photos, retained) && k < |photos|
  {
    if original.None? then forall m | m in retained :: !Close(metrics, tuning, photos[k], photos[m])
    else
      && original.value in retained && Close(metrics, tuning, photos[k], photos[original.value])
      && forall m | m in retained && m != original.value && Close(metrics, tuning, photos[k], photos[m]) ::
           Precedes(photos[original.value], photos[m])
  }

  method FindOriginal(photos: seq<Photo>, metrics: map<int, Metric>, tuning: Tuning, retained: seq<nat>, k: nat)
    returns (o: Option<nat>)
    requires Measured(metrics, photos) && InOrder(photos, retained) && k < |photos|
    ensures IsOriginal(photos, metrics, tuning, retained, k, o)
  {
    for i := 0 to |retained|
      invariant forall m | 0 <= m < i :: !Close(metrics, tuning, photos[k], photos[retained[m]])
    {
      if Close(metrics, tuning, photos[k], photos[retained[i]]) { return Some(retained[i]); }
    }
    return Option.None;
  }

  ghost predicate IsFolder(photos: seq<Photo>, place: Option<PlaceId>, group: seq<nat>) {
    forall k: nat :: k in group <==> k < |photos| && photos[k].place == place
  }

  function Verdict(p: Photo, issue: Option<Issue>, duplicateOf: Option<int>): Photo {
    p.(issue := issue, duplicateOf := duplicateOf)
  }

  /** The state after the first j photos of a folder, started from `was`. */
  ghost predicate PartlyJudged(was: seq<Photo>, now: seq<Photo>, metrics: map<int, Metric>, tuning: Tuning,
                               group: seq<nat>, j: nat)
    requires Measured(metrics, was) && j <= |group| && forall i | 0 <= i < |group| :: group[i] < |was|
  {
    && |now| == |was| && Measured(metrics, now)
    && (forall i | 0 <= i < |was| :: OnlyVerdict(was[i], now[i]))
    && (forall i: nat | i < |was| && i !in group[..j] :: now[i] == was[i])
    && (forall i | i in group[..j] :: Judged(now, metrics, tuning, i))
  }

  lemma InOrderStays(before: seq<Photo>, after: seq<Photo>, group: seq<nat>)
    requires InOrder(before, group) && |before| == |after|
    requires forall i | 0 <= i < |before| :: OnlyVerdict(before[i], after[i])
    ensures InOrder(after, group)
  {}

  lemma EarlierInGroup(photos: seq<Photo>, group: seq<nat>, j: nat, o: nat)
    requires InOrder(photos, group) && j < |group| && o in group && Precedes(photos[o], photos[group[j]])
    ensures o in group[..j]
  {
    forall m | j <= m < |group| ensures !Precedes(photos[group[m]], photos[group[j]]) {
      if m > j { assert Precedes(photos[group[j]], photos[group[m]]); }
    }
    var m :| 0 <= m < |group| && group[m] == o;
    assert group[..j][m] == o;
  }

  lemma EarlierPrecedes(photos: seq<Photo>, group: seq<nat>, j: nat, o: nat)
    requires InOrder(photos, group) && j < |group| && o in group[..j]
    ensures o < |photos| && Precedes(photos[o], photos[group[j]]) && o != group[j]
  {
    var m :| 0 <= m < j && group[..j][m] == o;
    assert group[m] == o;
  }

  /** With photo group[j] newly judged, what covers it is what had been retained and looks like it. */
  lemma CoveredByRetained(now: seq<Photo>, next: seq<Photo>, metrics: map<int, Metric>, tuning: Tuning,
                          place: Option<PlaceId>, group: seq<nat>, j: nat, retained: seq<nat>, o: nat)
    requires Measured(metrics, now) && Measured(metrics, next) && InOrder(now, group) && j < |group|
    requires IsFolder(now, place, group) && Retains(now, group, j, retained)
    requires |next| == |now| && next == now[group[j] := next[group[j]]] && OnlyVerdict(now[group[j]], next[group[j]])
    ensures Covers(next, metrics, tuning, o, group[j]) <==>
            o in retained && Close(metrics, tuning, now[group[j]], now[o])
  {
    var k := group[j];
    assert k in group;
    if o in retained {
      EarlierPrecedes(now, group, j, o);
      assert o in group;
      assert next[o] == now[o];
    }
    if Covers(next, metrics, tuning, o, k) {
      assert o in group && Precedes(now[o], now[k]);
      EarlierInGroup(now, group, j, o);
      EarlierPrecedes(now, group, j, o);
      assert next[o] == now[o];
    }
  }

  /** The verdict of the loop body, from the original it found. */
  function VerdictFor(photos: seq<Photo>, metrics: map<int, Metric>, tuning: Tuning, k: nat, original: Option<nat>): Photo
    requires k < |photos| && Measured(metrics, photos) && (original.Some? ==> original.value < |photos|)
  {
    if IsBlurry(metrics, tuning, photos[k]) then Verdict(photos[k], Some(Blurry), Option.None)
    else if original.Some? then Verdict(photos[k], Some(Duplicated), Some(photos[original.value].id))
    else Verdict(photos[k], KeptIssue(photos[k].place), Option.None)
  }

  lemma VerdictIsJudged(now: seq<Photo>, metrics: map<int, Metric>, tuning: Tuning, place: Option<PlaceId>,
                        group: seq<nat>, j: nat, retained: seq<nat>, original: Option<nat>)
    requires Measured(metrics, now) && InOrder(now, group) && j < |group|
    requires IsFolder(now, place, group) && Retains(now, group, j, retained)
    requires IsOriginal(now, metrics, tuning, retained, group[j], original)
    ensures var next := now[group[j] := VerdictFor(now, metrics, tuning, group[j], original)];
            Measured(metrics, next) && Judged(next, metrics, tuning, group[j])
  {
    var k := group[j];
    var next := now[k := VerdictFor(now, metrics, tuning, k, original)];
    forall o: nat ensures Covers(next, metrics, tuning, o, k) <==> o in retained && Close(metrics, tuning, now[k], now[o]) {
      CoveredByRetained(now, next, metrics, tuning, place, group, j, retained, o);
    }
    if original.Some? {
      var o := original.value;
      assert Covers(next, metrics, tuning, o, k);
      assert next[o].id == now[o].id;
      assert CoversFirst(next, metrics, tuning, o, k) by {
        forall m | Covers(next, metrics, tuning, m, k) && m != o ensures Precedes(next[o], next[m]) {
          assert m in retained;
        }
      }
    }
  }

  lemma RetainsNext(now: seq<Photo>, group: seq<nat>, j: nat, retained: seq<nat>, v: Photo)
    requires InOrder(now, group) && j < |group| && Retains(now, group, j, retained) && OnlyVerdict(now[group[j]], v)
    ensures var k := group[j];
            var next := now[k := v];
            && InOrder(next, group)
            && Retains(next, group, j + 1, if v.issue == KeptIssue(v.place) then retained + [k] else retained)
  {
    var k := group[j];
    var next := now[k := v];
    InOrderStays(now, next, group);
    InOrderStays(now, next, retained);
    assert group[..j + 1] == group[..j] + [k];
    forall o | o in group[..j] ensures o != k && o < |now| && Precedes(next[o], next[k]) {
      EarlierPrecedes(next, group, j, o);
    }
    forall o: nat | o in retained ensures o in group[..j] {}
    assert InOrder(next, retained + [k]);
  }

  lemma RetainedInOrder(photos: seq<Photo>, group: seq<nat>, j: nat, retained: seq<nat>)
    requires InOrder(photos, group) && j <= |group| && Retains(photos, group, j, retained)
    ensures InOrder(photos, retained)
  {}

  lemma OriginalIsThere(photos: seq<Photo>, metrics: map<int, Metric>, tuning: Tuning, retained: seq<nat>, k: nat,
                        original: Option<nat>)
    requires Measured(metrics, photos) && InOrder(photos, retained) && k < |photos|
    requires IsOriginal(photos, metrics, tuning, retained, k, original)
    ensures original.Some? ==> original.value < |photos|
  {}

  lemma PartlyJudgedNext(was: seq<Photo>, now: seq<Photo>, metrics: map<int, Metric>, tuning: Tuning,
                         group: seq<nat>, j: nat, v: Photo)
    requires Measured(metrics, was) && j < |group| && InOrder(now, group) && |now| == |was|
    requires PartlyJudged(was, now, metrics, tuning, group, j)
    requires OnlyVerdict(now[group[j]], v)
    requires Measured(metrics, now[group[j] := v]) && Judged(now[group[j] := v], metrics, tuning, group[j])
    ensures PartlyJudged(was, now[group[j] := v], metrics, tuning, group, j + 1)
  {
    var k := group[j];
    var next := now[k := v];
    assert group[..j + 1] == group[..j] + [k];
    assert OnlyVerdict(was[k], now[k]);
    forall i | i in group[..j] ensures Judged(next, metrics, tuning, i) {
      EarlierPrecedes(now, group, j, i);
      JudgedStays(now, next, metrics, tuning, i);
    }
  }

  /** Everything the loop over a folder keeps, one photo further. */
  lemma GroupStep(was: seq<Photo>, now: seq<Photo>, metrics: map<int, Metric>, tuning: Tuning, place: Option<PlaceId>,
                  group: seq<nat>, j: nat, retained: seq<nat>, original: Option<nat>)
    requires Measured(metrics, was) && Measured(metrics, now) && InOrder(now, group) && IsFolder(now, place, group)
    requires j < |group| && |now| == |was| && Retains(now, group, j, retained)
    requires PartlyJudged(was, now, metrics, tuning, group, j)
    requires IsOriginal(now, metrics, tuning, retained, group[j], original)
    ensures var k := group[j];
            var next := now[k := VerdictFor(now, metrics, tuning, k, original)];
            && Measured(metrics, next) && InOrder(next, group) && IsFolder(next, place, group)
            && PartlyJudged(was, next, metrics, tuning, group, j + 1)
            && Retains(next, group, j + 1,
                       if next[k].issue == KeptIssue(next[k].place) then retained + [k] else retained)
  {
    hide Covers, CoversFirst, Judged, IsOriginal, Precedes, PartlyJudged, Retains, Close;
    RetainedInOrder(now, group, j, retained);
    VerdictIsJudged(now, metrics, tuning, place, group, j, retained, original);
    OriginalIsThere(now, metrics, tuning, retained, group[j], original);
    var v := VerdictFor(now, metrics, tuning, group[j], original);
    RetainsNext(now, group, j, retained, v);
    PartlyJudgedNext(was, now, metrics, tuning, group, j, v);
  }

  // ---------- The steps themselves

  /** The loop over one sorted folder. */
  method FilterGroup(photos: array<Photo>, metrics: map<int, Metric>, tuning: Tuning, place: Option<PlaceId>,
                     group: seq<nat>)
    requires Measured(metrics, photos[..]) && InOrder(photos[..], group) && IsFolder(photos[..], place, group)
    modifies photos
    ensures PartlyJudged(old(photos[..]), photos[..], metrics, tuning, group, |group|)
  {
    hide Covers, CoversFirst, Judged, IsOriginal, Precedes, Close;
    ghost var was := photos[..];
    var retained: seq<nat> := [];
    for j := 0 to |group|
      invariant Measured(metrics, photos[..]) && InOrder(photos[..], group) && IsFolder(photos[..], place, group)
      invariant PartlyJudged(was, photos[..], metrics, tuning, group, j)
      invariant Retains(photos[..], group, j, retained)
    {
      ghost var now := photos[..];
      var k := group[j];
      var original := FindOriginal(photos[..], metrics, tuning, retained, k);
      GroupStep(was, now, metrics, tuning, place, group, j, retained, original);
      photos[k] := VerdictFor(photos[..], metrics, tuning, k, original);
      assert photos[..] == now[k := VerdictFor(now, metrics, tuning, k, original)];
      if photos[k].issue == KeptIssue(photos[k].place) { retained := retained + [k]; }
    }
  }

  /** The folders judged so far have verdicts, the others are as they came. */
  ghost predicate FoldersJudged(was: seq<Photo>, now: seq<Photo>, metrics: map<int, Metric>, tuning: Tuning,
                                done: set<Option<PlaceId>>)
    requires Measured(metrics, was)
  {
    && |now| == |was| && Measured(metrics, now)
    && (forall i | 0 <= i < |was| :: OnlyVerdict(was[i], now[i]))
    && (forall i | 0 <= i < |was| && was[i].place !in done :: now[i] == was[i])
    && (forall i | 0 <= i < |was| && was[i].place in done :: Judged(now, metrics, tuning, i))
  }

  lemma FolderDone(was: seq<Photo>, mid: seq<Photo>, now: seq<Photo>, metrics: map<int, Metric>, tuning: Tuning,
                   done: set<Option<PlaceId>>, place: Option<PlaceId>, group: seq<nat>)
    requires Measured(metrics, was) && FoldersJudged(was, mid, metrics, tuning, done) && place !in done
    requires InOrder(mid, group) && IsFolder(mid, place, group)
    requires PartlyJudged(mid, now, metrics, tuning, group, |group|)
    ensures FoldersJudged(was, now, metrics, tuning, done + {place})
  {
    assert group[..|group|] == group;
    forall i | 0 <= i < |was| ensures OnlyVerdict(was[i], now[i]) {
      assert OnlyVerdict(was[i], mid[i]) && OnlyVerdict(mid[i], now[i]);
    }
    forall i: nat | i < |was| && was[i].place != place ensures now[i] == mid[i] {
      assert OnlyVerdict(was[i], mid[i]) && i !in group;
    }
    forall i | 0 <= i < |was| && was[i].place in done + {place} ensures Judged(now, metrics, tuning, i) {
      assert OnlyVerdict(was[i], mid[i]);
      if was[i].place == place {
        assert i in group;
      } else {
        forall o | 0 <= o < |was| && mid[o].place == mid[i].place ensures now[o] == mid[o] {
          assert OnlyVerdict(was[o], mid[o]);
        }
        JudgedStays(mid, now, metrics, tuning, i);
      }
    }
  }

  lemma NoneJudged(was: seq<Photo>, metrics: map<int, Metric>, tuning: Tuning)
    requires Measured(metrics, was)
    ensures FoldersJudged(was, was, metrics, tuning, {})
  {}

  lemma JudgedParts(was: seq<Photo>, now: seq<Photo>, metrics: map<int, Metric>, tuning: Tuning, done: set<Option<PlaceId>>)
    requires Measured(metrics, was) && FoldersJudged(was, now, metrics, tuning, done)
    ensures |now| == |was| && Measured(metrics, now) && forall i | 0 <= i < |was| :: OnlyVerdict(was[i], now[i])
    ensures forall i | 0 <= i < |was| :: now[i].place == was[i].place
  {
    hide Judged;
  }

  lemma AllJudged(was: seq<Photo>, now: seq<Photo>, metrics: map<int, Metric>, tuning: Tuning, done: set<Option<PlaceId>>)
    requires Measured(metrics, was) && FoldersJudged(was, now, metrics, tuning, done)
    requires forall k | 0 <= k < |was| :: was[k].place in done
    ensures Filtered(was, now, metrics, tuning)
    ensures |now| == |was| && forall k | 0 <= k < |was| :: now[k].id == was[k].id
    ensures forall k | 0 <= k < |was| :: now[k].id in metrics
    ensures forall k | 0 <= k < |was| :: FairVerdict(was, now, metrics, tuning, k)
  {
    hide Judged, FairVerdict;
    forall k | 0 <= k < |was| ensures now[k].id == was[k].id { assert OnlyVerdict(was[k], now[k]); }
    forall k | 0 <= k < |was| ensures FairVerdict(was, now, metrics, tuning, k) {
      VerdictsAreFair(was, now, metrics, tuning, k);
    }
  }

  /** `filter_photos`: all input is checked first, then every photo of every folder gets its verdict. */
  method FilterPhotos(photos: array<Photo>, metrics: map<int, Metric>, tuning: Tuning)
    returns (variances: Outcome<map<int, real>>)
    modifies photos
    ensures variances.Done? <==> FilterAccepts(old(photos[..]), metrics, tuning)
    ensures variances.Failure? ==> photos[..] == old(photos[..])
    ensures variances.Done? ==>
              && Measured(metrics, old(photos[..])) && Filtered(old(photos[..]), photos[..], metrics, tuning)
              && (forall id :: id in variances.value <==> exists k :: 0 <= k < photos.Length && photos[k].id == id)
              && (forall id | id in variances.value :: id in metrics && variances.value[id] == metrics[id].variance)
    ensures variances.Done? ==> forall k | 0 <= k < photos.Length :: FairVerdict(old(photos[..]), photos[..], metrics, tuning, k)
  {
    hide Judged, Precedes, InOrder, PartlyJudged, InputOk, FairVerdict, Filtered, OnlyVerdict,
      FoldersJudged;
    ghost var was := photos[..];
    variances := CheckInput(photos[..], metrics, tuning);
    if variances.Failure? { return; }
    AcceptedIsMeasured(was, metrics, tuning);
    var places: set<Option<PlaceId>> := set k | 0 <= k < photos.Length :: photos[k].place;
    ghost var done: set<Option<PlaceId>> := {};
    NoneJudged(was, metrics, tuning);
    while places != {}
      invariant FoldersJudged(was, photos[..], metrics, tuning, done)
      invariant places !! done && forall k | 0 <= k < |was| :: was[k].place in places + done
      decreases |places|
    {
      var place :| place in places;
      places := places - {place};
      ghost var mid := photos[..];
      JudgedParts(was, mid, metrics, tuning, done);
      StillDistinct(was, mid);
      var group := Members(photos[..], place);
      FilterGroup(photos, metrics, tuning, place, group);
      FolderDone(was, mid, photos[..], metrics, tuning, done, place, group);
      done := done + {place};
    }
    AllJudged(was, photos[..], metrics, tuning, done);
  }

  lemma AcceptedIsMeasured(photos: seq<Photo>, metrics: map<int, Metric>, tuning: Tuning)
    requires FilterAccepts(photos, metrics, tuning)
    ensures Measured(metrics, photos) && DistinctIds(photos)
  {}

  lemma StillDistinct(before: seq<Photo>, after: seq<Photo>)
    requires |before| == |after| && DistinctIds(before) && forall i | 0 <= i < |before| :: OnlyVerdict(before[i], after[i])
    ensures DistinctIds(after)
  {
    forall i, j | 0 <= i < j < |after| ensures after[i].id != after[j].id {
      assert OnlyVerdict(before[i], after[i]) && OnlyVerdict(before[j], after[j]);
    }
  }

  // ---------- What filtering guarantees

  /** Kept photos of a folder are pairwise farther apart than the limit. */
  lemma KeptAreFarApart(before: seq<Photo>, after: seq<Photo>, metrics: map<int, Metric>, tuning: Tuning, o: nat, k: nat)
    requires Measured(metrics, before) && Filtered(before, after, metrics, tuning)
    requires o < |after| && k < |after| && after[o].place == after[k].place && Precedes(after[o], after[k])
    requires after[o].issue == KeptIssue(after[o].place) && after[k].issue == KeptIssue(after[k].place)
    ensures !Close(metrics, tuning, after[k], after[o])
  {
    assert Judged(after, metrics, tuning, k);
    if Close(metrics, tuning, after[k], after[o]) { assert Covers(after, metrics, tuning, o, k); }
  }

  /** A duplicate names the first kept photo of its folder that looks like it. */
  lemma DuplicateNamesFirstKept(before: seq<Photo>, after: seq<Photo>, metrics: map<int, Metric>, tuning: Tuning, k: nat)
    returns (o: nat)
    requires Measured(metrics, before) && Filtered(before, after, metrics, tuning)
    requires k < |after| && after[k].issue == Some(Duplicated)
    ensures o < |after| && after[k].duplicateOf == Some(after[o].id) && CoversFirst(after, metrics, tuning, o, k)
    ensures TakenFirst(after[o], after[k])
    ensures forall m | KeptLookAlike(after, metrics, tuning, m, k) && m != o :: TakenFirst(after[o], after[m])
  {
    assert Judged(after, metrics, tuning, k);
    o :| CoversFirst(after, metrics, tuning, o, k) && after[k].duplicateOf == Some(after[o].id);
    hide Precedes, TakenFirst, Judged;
    PrecedesIsTakenFirst(after[o], after[k]);
    forall m | KeptLookAlike(after, metrics, tuning, m, k) && m != o ensures TakenFirst(after[o], after[m]) {
      PrecedesIsTakenFirst(after[m], after[k]);
      assert Covers(after, metrics, tuning, m, k);
      PrecedesIsTakenFirst(after[o], after[m]);
    }
  }

  /** A folder with a photo that is not blurry keeps at least one. */
  lemma SharpFolderKeepsOne(before: seq<Photo>, after: seq<Photo>, metrics: map<int, Metric>, tuning: Tuning, k: nat)
    requires Measured(metrics, before) && Filtered(before, after, metrics, tuning) && k < |after|
    ensures after[k].issue == Some(Blurry)
            || exists o :: 0 <= o < |after| && after[o].place == after[k].place && after[o].issue == KeptIssue(after[o].place)
  {
    assert Judged(after, metrics, tuning, k);
    if o :| Covers(after, metrics, tuning, o, k) {
      assert after[o].place == after[k].place && after[o].issue == KeptIssue(after[o].place);
    }
  }

  function Earlier(photos: seq<Photo>, k: nat): set<nat>
    requires k < |photos|
  {
    set o: nat | o < |photos| && Precedes(photos[o], photos[k])
  }

  lemma EarlierShrinks(photos: seq<Photo>, o: nat, k: nat)
    requires o < |photos| && k < |photos| && Precedes(photos[o], photos[k])
    ensures |Earlier(photos, o)| < |Earlier(photos, k)|
  {
    assert Earlier(photos, o) <= Earlier(photos, k) - {o};
    SubsetSize(Earlier(photos, o), Earlier(photos, k) - {o});
  }

  lemma JudgedAlike(a: seq<Photo>, b: seq<Photo>, metrics: map<int, Metric>, tuning: Tuning, k: nat)
    requires Measured(metrics, a) && Measured(metrics, b) && |a| == |b| && k < |a| && DistinctIds(a)
    requires forall i | 0 <= i < |a| :: OnlyVerdict(a[i], b[i])
    requires Judged(a, metrics, tuning, k) && Judged(b, metrics, tuning, k)
    requires forall o | 0 <= o < |a| && Precedes(a[o], a[k]) :: a[o] == b[o]
    ensures a[k] == b[k]
  {
    assert OnlyVerdict(a[k], b[k]);
    forall o ensures Covers(a, metrics, tuning, o, k) <==> Covers(b, metrics, tuning, o, k) {
      if 0 <= o < |a| { assert OnlyVerdict(a[o], b[o]); }
    }
    if !IsBlurry(metrics, tuning, a[k]) && exists o :: Covers(a, metrics, tuning, o, k) {
      var o :| CoversFirst(a, metrics, tuning, o, k) && a[k].duplicateOf == Some(a[o].id);
      var m :| CoversFirst(b, metrics, tuning, m, k) && b[k].duplicateOf == Some(b[m].id);
      assert Covers(a, metrics, tuning, o, k) && Covers(b, metrics, tuning, m, k);
      assert a[o] == b[o] && a[m] == b[m];
      if o != m { PrecedesIsTotal(a[o], a[m]); }
    }
  }

  /** The verdicts are determined: two results for the same photos agree. */
  lemma {:induction false} VerdictsAgree(before: seq<Photo>, a: seq<Photo>, b: seq<Photo>, metrics: map<int, Metric>,
                                         tuning: Tuning, k: nat)
    requires Measured(metrics, before) && DistinctIds(before) && k < |before|
    requires Filtered(before, a, metrics, tuning) && Filtered(before, b, metrics, tuning)
    ensures a[k] == b[k]
    decreases |Earlier(a, k)|
  {
    hide Judged;
    forall i | 0 <= i < |a| ensures OnlyVerdict(a[i], b[i]) {
      assert OnlyVerdict(before[i], a[i]) && OnlyVerdict(before[i], b[i]);
    }
    StillDistinct(before, a);
    forall o: nat | o < |a| && Precedes(a[o], a[k]) ensures a[o] == b[o] {
      EarlierShrinks(a, o, k);
      VerdictsAgree(before, a, b, metrics, tuning, o);
    }
    JudgedAlike(a, b, metrics, tuning, k);
  }

  /** Filtering photos a second time is accepted and changes nothing. */
  lemma RefilteringChangesNothing(before: seq<Photo>, after: seq<Photo>, again: seq<Photo>, metrics: map<int, Metric>,
                                  tuning: Tuning)
    requires FilterAccepts(before, metrics, tuning) && Measured(metrics, before)
    requires Filtered(before, after, metrics, tuning)
    ensures FilterAccepts(after, metrics, tuning)
    ensures Filtered(after, again, metrics, tuning) ==> again == after
  {
    StillDistinct(before, after);
    forall k | 0 <= k < |after| ensures InputOk(after[k], metrics) {
      assert OnlyVerdict(before[k], after[k]) && InputOk(before[k], metrics) && Judged(after, metrics, tuning, k);
    }
    if Filtered(after, again, metrics, tuning) {
      forall k: nat | k < |after| ensures again[k] == after[k] {
        VerdictsAgree(after, again, after, metrics, tuning, k);
      }
    }
  }

  // ---------- Releasing folders without a photo to show

  /** The folder has neither a GPS photo nor a photo without an issue. */
  ghost predicate Unshowable(photos: seq<Photo>, place: Option<PlaceId>) {
    place.Some? && forall m | 0 <= m < |photos| && photos[m].place == place ::
                     photos[m].origin != Exif && photos[m].issue != Option.None
  }

  function Freed(p: Photo): Photo {
    p.(place := Option.None, spot := Option.None, origin := Unknown)
  }

  /** Photos of unshowable folders lose their folder; all others are untouched. */
  ghost predicate Released(before: seq<Photo>, after: seq<Photo>) {
    && |after| == |before|
    && forall k | 0 <= k < |before| ::
         after[k] == if Unshowable(before, before[k].place)
                     then before[k].(place := Option.None, spot := Option.None, origin := Unknown) else before[k]
  }

  method IsUnshowable(photos: seq<Photo>, group: seq<nat>, place: Option<PlaceId>) returns (b: bool)
    requires place.Some? && IsFolder(photos, place, group)
    ensures b <==> Unshowable(photos, place)
  {
    b := true;
    for i := 0 to |group|
      invariant forall k | k in group :: k < |photos|
      invariant b ==> forall m | m in group[..i] :: m < |photos| && photos[m].origin != Exif && photos[m].issue != Option.None
      invariant !b ==> !Unshowable(photos, place)
    {
      assert group[i] in group;
      assert group[..i + 1] == group[..i] + [group[i]];
      if photos[group[i]].origin == Exif || photos[group[i]].issue.None? { b := false; }
    }
    assert group[..|group|] == group;
    if b {
      forall m: nat | m < |photos| && photos[m].place == place
        ensures photos[m].origin != Exif && photos[m].issue != Option.None
      {
        assert m in group;
      }
    }
  }

  method FreeAll(photos: array<Photo>, group: seq<nat>)
    requires forall k | k in group :: k < photos.Length
    modifies photos
    ensures forall k: nat | k < photos.Length :: photos[k] == if k in group then Freed(old(photos[k])) else old(photos[k])
  {
    for i := 0 to |group|
      invariant forall k: nat | k < photos.Length ::
                  photos[k] == if k in group[..i] then Freed(old(photos[k])) else old(photos[k])
    {
      assert group[i] in group && group[..i + 1] == group[..i] + [group[i]];
      photos[group[i]] := Freed(photos[group[i]]);
    }
    assert group[..|group|] == group;
  }

  /** The folders gone through so far have been released where that was due. */
  ghost predicate ReleasedAmong(was: seq<Photo>, now: seq<Photo>, done: set<Option<PlaceId>>) {
    && |now| == |was|
    && forall k | 0 <= k < |was| ::
         now[k] == if was[k].place in done && Unshowable(was, was[k].place) then Freed(was[k]) else was[k]
  }

  ghost predicate FreedIds(was: seq<Photo>, done: set<Option<PlaceId>>, ids: set<int>) {
    forall id :: id in ids <==>
      exists k :: 0 <= k < |was| && was[k].id == id && was[k].place in done && Unshowable(was, was[k].place)
  }

  lemma ReleasingKeepsIds(was: seq<Photo>, now: seq<Photo>, done: set<Option<PlaceId>>)
    requires DistinctIds(was) && ReleasedAmong(was, now, done)
    ensures DistinctIds(now)
  {
    forall k | 0 <= k < |was| ensures now[k].id == was[k].id {}
  }

  lemma SameFolder(was: seq<Photo>, mid: seq<Photo>, done: set<Option<PlaceId>>, place: Option<PlaceId>)
    requires ReleasedAmong(was, mid, done) && place.Some? && place !in done
    ensures forall k | 0 <= k < |was| :: was[k].place == place <==> mid[k].place == place
    ensures forall k | 0 <= k < |was| && was[k].place == place :: mid[k] == was[k]
    ensures Unshowable(was, place) <==> Unshowable(mid, place)
  {}

  lemma FolderReleased(was: seq<Photo>, mid: seq<Photo>, now: seq<Photo>, done: set<Option<PlaceId>>,
                       place: Option<PlaceId>)
    requires ReleasedAmong(was, mid, done) && place.Some? && place !in done && |now| == |mid|
    requires forall k | 0 <= k < |mid| ::
               now[k] == if Unshowable(mid, place) && mid[k].place == place then Freed(mid[k]) else mid[k]
    ensures ReleasedAmong(was, now, done + {place})
  {
    SameFolder(was, mid, done, place);
    hide Unshowable;
  }

  lemma FreedFolder(was: seq<Photo>, mid: seq<Photo>, done: set<Option<PlaceId>>, place: Option<PlaceId>,
                    ids: set<int>, freed: set<int>)
    requires ReleasedAmong(was, mid, done) && place.Some? && place !in done && FreedIds(was, done, ids)
    requires forall id :: id in freed <==>
               Unshowable(mid, place) && exists k :: 0 <= k < |mid| && mid[k].place == place && mid[k].id == id
    ensures FreedIds(was, done + {place}, ids + freed)
  {
    SameFolder(was, mid, done, place);
    hide Unshowable;
    forall id ensures id in ids + freed <==>
      exists k :: 0 <= k < |was| && was[k].id == id && was[k].place in done + {place} && Unshowable(was, was[k].place)
    {
      if k :| 0 <= k < |mid| && mid[k].place == place && mid[k].id == id {
        assert was[k].place == place;
      }
      if k :| 0 <= k < |was| && was[k].id == id && was[k].place == place {
        assert mid[k].place == place && mid[k].id == id;
      }
    }
  }

  /** One folder: free its photos if none of them can be shown. */
  method ReleaseFolder(photos: array<Photo>, place: Option<PlaceId>) returns (freed: set<int>)
    requires DistinctIds(photos[..]) && place.Some?
    modifies photos
    ensures forall k | 0 <= k < photos.Length ::
              photos[k] == if Unshowable(old(photos[..]), place) && old(photos[k]).place == place
                           then Freed(old(photos[k])) else old(photos[k])
    ensures forall id :: id in freed <==>
              && Unshowable(old(photos[..]), place)
              && exists k :: 0 <= k < photos.Length && old(photos[k]).place == place && old(photos[k]).id == id
  {
    hide Precedes, InOrder, Unshowable;
    var group := Members(photos[..], place);
    var free := IsUnshowable(photos[..], group, place);
    freed := {};
    if free {
      freed := set k | k in group :: photos[k].id;
      FreeAll(photos, group);
    }
  }

  lemma ReleaseStarts(was: seq<Photo>)
    ensures ReleasedAmong(was, was, {}) && FreedIds(was, {}, {})
  {}

  lemma ReleaseEnds(was: seq<Photo>, now: seq<Photo>, done: set<Option<PlaceId>>, released: set<int>)
    requires ReleasedAmong(was, now, done) && FreedIds(was, done, released)
    requires forall k | 0 <= k < |was| && was[k].place.Some? :: was[k].place in done
    ensures Released(was, now)
    ensures forall id :: id in released <==>
              exists k :: 0 <= k < |was| && was[k].id == id && Unshowable(was, was[k].place)
  {
    NoFolderIsReleased(was);
    hide Unshowable;
  }

  /** `release_unshowable_new_places`, and the ids of the photos it frees. */
  method ReleaseUnshowable(photos: array<Photo>) returns (released: set<int>)
    requires DistinctIds(photos[..])
    modifies photos
    ensures Released(old(photos[..]), photos[..])
    ensures forall id :: id in released <==>
              exists k :: 0 <= k < photos.Length && old(photos[..])[k].id == id
                          && Unshowable(old(photos[..]), old(photos[..])[k].place)
  {
    hide Unshowable, ReleasedAmong, FreedIds, Released;
    ghost var was := photos[..];
    var places: set<Option<PlaceId>> := set k | 0 <= k < photos.Length && photos[k].place.Some? :: photos[k].place;
    ghost var done: set<Option<PlaceId>> := {};
    released := {};
    ReleaseStarts(was);
    while places != {}
      invariant places !! done && Option.None !in places && Option.None !in done
      invariant forall k | 0 <= k < |was| && was[k].place.Some? :: was[k].place in places + done
      invariant ReleasedAmong(was, photos[..], done) && FreedIds(was, done, released)
      decreases |places|
    {
      var place :| place in places;
      places := places - {place};
      ghost var mid := photos[..];
      ReleasingKeepsIds(was, mid, done);
      var freed := ReleaseFolder(photos, place);
      FolderReleased(was, mid, photos[..], done, place);
      FreedFolder(was, mid, done, place, released, freed);
      released := released + freed;
      done := done + {place};
    }
    ReleaseEnds(was, photos[..], done, released);
  }

  /** A photo without a folder is never in an unshowable one. */
  lemma NoFolderIsReleased(photos: seq<Photo>)
    ensures forall k | 0 <= k < |photos| && photos[k].place.None? :: !Unshowable(photos, photos[k].place)
  {}
}
