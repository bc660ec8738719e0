/**
 The steps of one organising job after CLUSTERING, one after the other (app/pipeline/run.py):
 rules, agent, blur and duplicate filtering, release, result.
 */
module Pipeline {
  import opened Wrappers
  import opened Photos
  import opened Merging
  import opened TripPlaces
  import opened Filtering
  import opened Finalizing
  import Agent
  import AgentRuns
  import Assigning

  /** What the steps before leave behind, in any order: folders with GPS photos of their own, and decided times. */
  ghost predicate Located(photos: seq<Photo>) {
    && DistinctIds(photos) && Grounded(photos, [], [])
    && forall p | p in photos :: TimeDecided(p)
  }

  /** Every photo has been measured. */
  ghost predicate AllMeasured(photos: seq<Photo>, metrics: map<int, Metric>) {
    forall p | p in photos :: p.id in metrics && metrics[p.id].variance >= 0.0
  }

  function AllVariances(metrics: map<int, Metric>): map<int, real> {
    map id | id in metrics :: metrics[id].variance
  }

  /** Photos that rules and agent are done with, all of them measured. */
  ghost predicate Ready(photos: seq<Photo>, metrics: map<int, Metric>) {
    DistinctIds(photos) && AllMeasured(photos, metrics) && forall k | 0 <= k < |photos| :: Organised(photos[k])
  }

  // ---------- From photos in folders to the result

  ghost predicate WithGps(photos: seq<Photo>, place: PlaceId) {
    exists k :: 0 <= k < |photos| && photos[k].place == Some(place) && photos[k].origin == Exif
  }

  /** A folder with GPS photos whose variances are all below the threshold. */
  ghost predicate TooBlurry(photos: seq<Photo>, metrics: map<int, Metric>, tuning: Tuning, place: PlaceId)
    requires Measured(metrics, photos)
  {
    && WithGps(photos, place)
    && forall k | 0 <= k < |photos| && photos[k].place == Some(place) :: IsBlurry(metrics, tuning, photos[k])
  }

  /**
   Filtering and release decide the final photos, and a result exists exactly when no folder with
   GPS photos was too blurry to begin with.
   */
  ghost predicate Concluded(placed: seq<Photo>, final: seq<Photo>, metrics: map<int, Metric>, tuning: Tuning,
                            chooser: Chooser, result: Outcome<ProcessResult>)
  {
    && Measured(metrics, placed)
    && (exists filtered :: Filtered(placed, filtered, metrics, tuning) && Released(filtered, final))
    && (result.Done? <==> forall place :: !TooBlurry(placed, metrics, tuning, place))
    && (result.Done? ==> ResultOk(final, AllVariances(metrics), chooser, result.value))
  }

  lemma ReadyIsAccepted(photos: seq<Photo>, metrics: map<int, Metric>, tuning: Tuning)
    requires Ready(photos, metrics)
    ensures FilterAccepts(photos, metrics, tuning) <==> TuningOk(tuning)
    ensures Measured(metrics, photos)
  {
    forall k | 0 <= k < |photos| ensures InputOk(photos[k], metrics) {
      assert photos[k] in photos;
    }
  }

  /** A folder ends up all blurry exactly when it was too blurry to begin with. */
  lemma BlurryThroughout(placed: seq<Photo>, filtered: seq<Photo>, final: seq<Photo>, metrics: map<int, Metric>,
                         tuning: Tuning, place: PlaceId)
    requires Measured(metrics, placed) && Filtered(placed, filtered, metrics, tuning) && Released(filtered, final)
    ensures AllBlurry(final, place) <==> TooBlurry(placed, metrics, tuning, place)
  {
    forall k | 0 <= k < |placed|
      ensures filtered[k].place == placed[k].place && filtered[k].origin == placed[k].origin
      ensures filtered[k].issue == Some(Blurry) <==> IsBlurry(metrics, tuning, placed[k])
    {
      assert OnlyVerdict(placed[k], filtered[k]) && Judged(filtered, metrics, tuning, k);
    }
    hide Judged;
    if TooBlurry(placed, metrics, tuning, place) {
      var k :| 0 <= k < |placed| && placed[k].place == Some(place) && placed[k].origin == Exif;
      assert filtered[k].place == Some(place) && filtered[k].origin == Exif;
      assert !Unshowable(filtered, Some(place));
      assert final[k] == filtered[k];
    }
    if AllBlurry(final, place) {
      var k :| 0 <= k < |final| && final[k].place == Some(place) && final[k].origin == Exif;
      assert final[k] == filtered[k];
      assert !Unshowable(filtered, Some(place));
      assert placed[k].place == Some(place) && placed[k].origin == Exif;
      forall m | 0 <= m < |placed| && placed[m].place == Some(place) ensures IsBlurry(metrics, tuning, placed[m]) {
        assert filtered[m].place == Some(place) && final[m] == filtered[m];
      }
    }
  }

  /** Every folder has a photo with GPS. */
  ghost predicate AllWithGps(photos: seq<Photo>) {
    forall k | 0 <= k < |photos| && photos[k].place.Some? :: WithGps(photos, photos[k].place.value)
  }

  /** Where every folder has a photo with GPS, releasing would change nothing. */
  lemma NothingToRelease(placed: seq<Photo>, filtered: seq<Photo>)
    requires AllWithGps(placed)
    requires |filtered| == |placed| && forall k | 0 <= k < |placed| :: OnlyVerdict(placed[k], filtered[k])
    ensures Released(filtered, filtered)
  {
    hide WithGps, Unshowable;
    forall k | 0 <= k < |filtered| ensures !Unshowable(filtered, filtered[k].place) {
      assert OnlyVerdict(placed[k], filtered[k]);
      if filtered[k].place.Some? {
        GpsIsShown(placed, filtered, filtered[k].place.value);
      } else {
        NoFolder(filtered);
      }
    }
  }

  lemma NoFolder(photos: seq<Photo>)
    ensures !Unshowable(photos, Option.None)
  {}

  lemma GpsIsShown(placed: seq<Photo>, filtered: seq<Photo>, place: PlaceId)
    requires WithGps(placed, place)
    requires |filtered| == |placed| && forall k | 0 <= k < |placed| :: OnlyVerdict(placed[k], filtered[k])
    ensures !Unshowable(filtered, Some(place))
  {
    var k :| 0 <= k < |placed| && placed[k].place == Some(place) && placed[k].origin == Exif;
    assert OnlyVerdict(placed[k], filtered[k]);
  }

  lemma GroundedHasGps(photos: seq<Photo>)
    requires Grounded(photos, [], [])
    ensures AllWithGps(photos)
  {
    forall k | 0 <= k < |photos| && photos[k].place.Some? ensures WithGps(photos, photos[k].place.value) {
      assert Known(photos, [], photos[k].place.value);
    }
  }

  /** Filtering, release where an agent ran, and the result. */
  method Conclude(photos: array<Photo>, agent: bool, metrics: map<int, Metric>, tuning: Tuning, chooser: Chooser)
    returns (result: Outcome<ProcessResult>)
    requires Ready(photos[..], metrics) && Capable(chooser) && (agent || AllWithGps(photos[..]))
    modifies photos
    ensures !TuningOk(tuning) ==> result.Failure? && photos[..] == old(photos[..])
    ensures TuningOk(tuning) ==> Concluded(old(photos[..]), photos[..], metrics, tuning, chooser, result)
  {
    hide Organised, Judged, FilterAccepts, Finalizable, ResultOk, AllBlurry, TooBlurry, Capable, Ready, Filtered, Released,
      AllWithGps;
    ghost var placed := photos[..];
    ReadyIsAccepted(placed, metrics, tuning);
    var variances := FilterPhotos(photos, metrics, tuning);
    if variances.Failure? { return Failure; }
    ghost var filtered := photos[..];
    ReadyParts(placed, metrics);
    FilteredParts(placed, filtered, metrics, tuning);
    if agent {
      var released := ReleaseUnshowable(photos);
    } else {
      NothingToRelease(placed, filtered);
    }
    ghost var final := photos[..];
    VariancesAre(placed, filtered, metrics, variances.value);
    OnlyBlurryFoldersFail(placed, filtered, final, metrics, tuning, variances.value, chooser);
    BlurryFolders(placed, filtered, final, metrics, tuning);
    result := Finalize(photos[..], variances.value, chooser);
    if result.Done? {
      ReleasedIds(placed, filtered, final, metrics, tuning);
      SameVariances(placed, final, metrics, variances.value);
      SameResult(final, variances.value, AllVariances(metrics), chooser, result.value);
    }
  }

  lemma ReadyParts(photos: seq<Photo>, metrics: map<int, Metric>)
    requires Ready(photos, metrics)
    ensures DistinctIds(photos) && AllMeasured(photos, metrics) && forall k | 0 <= k < |photos| :: Organised(photos[k])
  {}

  lemma FilteredParts(placed: seq<Photo>, filtered: seq<Photo>, metrics: map<int, Metric>, tuning: Tuning)
    requires Measured(metrics, placed) && Filtered(placed, filtered, metrics, tuning) && DistinctIds(placed)
    ensures |filtered| == |placed| && DistinctIds(filtered)
    ensures forall k | 0 <= k < |placed| :: OnlyVerdict(placed[k], filtered[k])
  {
    StillDistinct(placed, filtered);
  }

  lemma BlurryFolders(placed: seq<Photo>, filtered: seq<Photo>, final: seq<Photo>, metrics: map<int, Metric>, tuning: Tuning)
    requires Measured(metrics, placed) && Filtered(placed, filtered, metrics, tuning) && Released(filtered, final)
    ensures (forall place | (exists p :: p in final && p.place == Some(place)) :: !AllBlurry(final, place))
            <==> forall place :: !TooBlurry(placed, metrics, tuning, place)
  {
    forall place ensures AllBlurry(final, place) <==> TooBlurry(placed, metrics, tuning, place) {
      BlurryThroughout(placed, filtered, final, metrics, tuning, place);
    }
    forall place | AllBlurry(final, place) ensures exists p :: p in final && p.place == Some(place) {
      var k :| 0 <= k < |final| && final[k].place == Some(place) && final[k].origin == Exif;
      assert final[k] in final;
    }
    hide AllBlurry, TooBlurry;
  }

  lemma VariancesAre(placed: seq<Photo>, filtered: seq<Photo>, metrics: map<int, Metric>, variances: map<int, real>)
    requires |placed| == |filtered| && forall k | 0 <= k < |placed| :: OnlyVerdict(placed[k], filtered[k])
    requires forall id :: id in variances <==> exists k :: 0 <= k < |filtered| && filtered[k].id == id
    requires forall id | id in variances :: id in metrics && variances[id] == metrics[id].variance
    ensures forall k | 0 <= k < |placed| ::
              && placed[k].id in variances && placed[k].id in metrics
              && variances[placed[k].id] == metrics[placed[k].id].variance
  {
    forall k | 0 <= k < |placed| ensures placed[k].id in variances {
      assert OnlyVerdict(placed[k], filtered[k]) && filtered[k].id == placed[k].id;
    }
  }

  lemma SameVariances(placed: seq<Photo>, final: seq<Photo>, metrics: map<int, Metric>, variances: map<int, real>)
    requires |placed| == |final| && forall k | 0 <= k < |placed| :: final[k].id == placed[k].id
    requires forall k | 0 <= k < |placed| ::
               && placed[k].id in variances && placed[k].id in metrics
               && variances[placed[k].id] == metrics[placed[k].id].variance
    ensures forall p | p in final ::
              p.id in variances && p.id in AllVariances(metrics) && variances[p.id] == AllVariances(metrics)[p.id]
  {
    forall p | p in final ensures p.id in variances && p.id in metrics && variances[p.id] == metrics[p.id].variance {
      var k :| 0 <= k < |final| && final[k] == p;
      assert final[k].id == placed[k].id;
    }
  }

  lemma SameResult(photos: seq<Photo>, a: map<int, real>, b: map<int, real>, chooser: Chooser, r: ProcessResult)
    requires ResultOk(photos, a, chooser, r)
    requires forall p | p in photos :: p.id in a && p.id in b && a[p.id] == b[p.id]
    ensures ResultOk(photos, b, chooser, r)
  {
    hide ById, EntryOk, Score;
  }

  // ---------- The whole job

  /** What the agent, if there is one, does to the photos the rules have settled. */
  ghost predicate AgentDid(agent: Option<AgentRuns.Model>, similarity: Similarity, settled: seq<Photo>, placed: seq<Photo>) {
    if agent.None? || (!AgentRuns.AnyTarget(settled) && |UsedRoots([], settled)| < 2) then placed == settled
    else
      exists log, groups ::
        && Agent.ComesFrom(agent.value, similarity, AgentRuns.View(settled, map[], [], []), log, groups, placed)
        && Agent.Organised(groups, settled, placed)
  }

  /** The chain of steps: the photos in ID order, settled by the rules, placed by the agent, concluded. */
  ghost predicate Follows(photos: seq<Photo>, rules: Assigning.Rules, agent: Option<AgentRuns.Model>,
                          metrics: map<int, Metric>, tuning: Tuning, chooser: Chooser, final: seq<Photo>,
                          result: Outcome<ProcessResult>)
  {
    exists sorted, placed ::
      && Assigning.InIdOrder(photos, sorted)
      && AgentDid(agent, rules.similarity, Assigning.Settled(sorted, rules), placed)
      && Concluded(placed, final, metrics, tuning, chooser, result)
  }

  /** The same pictures, each in a folder with coordinates or with an unclear location. */
  ghost predicate Placed(before: seq<Photo>, after: seq<Photo>) {
    && |before| == |after|
    && (forall k | 0 <= k < |before| :: SamePicture(before[k], after[k]) && PhotoOk(after[k]))
  }

  lemma LocatedInOrder(photos: seq<Photo>, sorted: seq<Photo>, metrics: map<int, Metric>)
    requires Located(photos) && AllMeasured(photos, metrics) && Assigning.InIdOrder(photos, sorted)
    ensures Located(sorted) && AllMeasured(sorted, metrics)
  {
    forall p ensures p in photos <==> p in sorted { Assigning.SameElements(photos, sorted, p); }
    forall q | Known(photos, [], q) ensures Known(sorted, [], q) {
      var k :| 0 <= k < |photos| && photos[k].origin == Exif && photos[k].place == Some(q);
      assert photos[k] in sorted;
      var m :| 0 <= m < |sorted| && sorted[m] == photos[k];
    }
    forall k | 0 <= k < |sorted|
      ensures PhotoOk(sorted[k]) && (sorted[k].place.Some? ==> Known(sorted, [], sorted[k].place.value))
    {
      assert sorted[k] in photos;
      var m :| 0 <= m < |photos| && photos[m] == sorted[k];
      assert PhotoOk(photos[m]);
      assert photos[m].place.Some? ==> Known(photos, [], photos[m].place.value);
    }
  }

  lemma LocatedParts(photos: seq<Photo>)
    requires Located(photos)
    ensures DistinctIds(photos) && Grounded(photos, [], [])
  {}

  lemma PlacedIsReady(before: seq<Photo>, after: seq<Photo>, metrics: map<int, Metric>)
    requires Located(before) && Placed(before, after) && AllMeasured(before, metrics)
    ensures Ready(after, metrics)
  {
    forall k | 0 <= k < |after| ensures after[k].id == before[k].id && Organised(after[k]) {
      assert SamePicture(before[k], after[k]) && PhotoOk(after[k]);
      assert before[k] in before;
    }
    forall i, j | 0 <= i < j < |after| ensures after[i].id != after[j].id {
      assert before[i].id != before[j].id;
    }
    forall p | p in after ensures p.id in metrics && metrics[p.id].variance >= 0.0 {
      var k :| 0 <= k < |after| && after[k] == p;
      assert before[k] in before;
    }
  }

  lemma AssignedIsPlaced(before: seq<Photo>, after: seq<Photo>, rules: Assigning.Rules)
    requires Assigning.Assigned(before, after, rules)
    ensures Placed(before, after) && Grounded(after, [], [])
  {}

  lemma OrganisedIsPlaced(groups: seq<seq<PlaceId>>, before: seq<Photo>, after: seq<Photo>)
    requires Agent.Organised(groups, before, after) && forall k | 0 <= k < |after| :: PhotoOk(after[k])
    ensures Placed(before, after)
  {}

  lemma GroundedIsPlaced(photos: seq<Photo>)
    requires Grounded(photos, [], [])
    ensures Placed(photos, photos)
  {}

  lemma PlacedJoins(a: seq<Photo>, b: seq<Photo>, c: seq<Photo>)
    requires Placed(a, b) && Placed(b, c)
    ensures Placed(a, c)
  {
    forall k | 0 <= k < |a| ensures SamePicture(a[k], c[k]) {
      assert SamePicture(a[k], b[k]) && SamePicture(b[k], c[k]);
    }
  }

  lemma NoAgent(similarity: Similarity, settled: seq<Photo>)
    requires Grounded(settled, [], [])
    ensures AgentDid(Option.None, similarity, settled, settled) && Placed(settled, settled)
  {}

  /** On located photos the rules answer with an error exactly when their input is rejected. */
  lemma RulesAnswer(photos: seq<Photo>, sorted: seq<Photo>, rules: Assigning.Rules, answer: Assigning.Answer)
    requires Assigning.InIdOrder(photos, sorted) && Located(sorted) && Assigning.IsAnswer(photos, rules, answer)
    ensures if Assigning.Rejected(photos, rules) then answer == Assigning.Invalid
            else answer.Finished? && answer.photos == Assigning.Settled(sorted, rules)
  {
    hide Assigning.Rejected, Assigning.Settled, Assigning.GetsStuck, Grounded;
    LocatedParts(sorted);
    Assigning.NeverStuck(sorted, rules);
    Assigning.SameRejection(photos, sorted, rules);
    var s :| Assigning.InIdOrder(photos, s) && answer == Assigning.AnswerInOrder(s, rules);
    Assigning.OneOrder(s, sorted);
  }

  /** `run_agent` on the settled photos. */
  method Consult(photos: array<Photo>, similarity: Similarity, model: AgentRuns.Model)
    requires SortedById(photos[..]) && Grounded(photos[..], [], []) && AgentRuns.Sound(model)
    modifies photos
    ensures AgentDid(Some(model), similarity, old(photos[..]), photos[..]) && Placed(old(photos[..]), photos[..])
  {
    hide Grounded, Placed, AgentRuns.Sound, AgentRuns.AnyTarget, Agent.Organised, Agent.ComesFrom;
    ghost var settled := photos[..];
    var trip := new Agent.TripView(photos, similarity);
    assert trip.Now() == AgentRuns.View(settled, map[], [], []);
    var skipped, groups, log := trip.Run(model);
    if skipped {
      GroundedIsPlaced(settled);
    } else {
      OrganisedIsPlaced(groups, settled, photos[..]);
    }
  }

  /**
   A whole job after CLUSTERING.  It fails on rejected input or thresholds; otherwise every step
   goes through and the chain decides the final photos and whether there is a result.
   */
  method Organise(photos: seq<Photo>, rules: Assigning.Rules, agent: Option<AgentRuns.Model>,
                  metrics: map<int, Metric>, tuning: Tuning, chooser: Chooser)
    returns (result: Outcome<ProcessResult>, final: array<Photo>)
    requires Located(photos) && AllMeasured(photos, metrics) && Capable(chooser)
    requires agent.Some? ==> AgentRuns.Sound(agent.value)
    ensures fresh(final)
    ensures Assigning.Rejected(photos, rules) || !TuningOk(tuning) ==> result.Failure?
    ensures !Assigning.Rejected(photos, rules) && TuningOk(tuning) ==>
              Follows(photos, rules, agent, metrics, tuning, chooser, final[..], result)
  {
    hide Located, Grounded, Placed, AllMeasured, Capable, AgentRuns.Sound, Concluded, AgentDid, AllWithGps,
      Assigning.Assigned, Assigning.Settled, Assigning.Rejected, Assigning.IsAnswer, Ready;
    LocatedParts(photos);
    ghost var sorted := Assigning.OrderExists(photos);
    LocatedInOrder(photos, sorted, metrics);
    LocatedParts(sorted);
    var count, ok;
    final, count, ok := Assigning.AssignUnlocated(photos, rules);
    if !ok {
      WhichError(photos, sorted, rules);
      return Failure, final;
    }
    RulesAnswer(photos, sorted, rules, Assigning.Finished(final[..], count));
    ghost var settled := final[..];
    Assigning.SettledAssigns(sorted, rules);
    AssignedIsPlaced(sorted, settled, rules);
    Assigning.AssignedGrounded(sorted, settled, rules);
    if agent.Some? {
      Consult(final, rules.similarity, agent.value);
    } else {
      GroundedHasGps(settled);
      NoAgent(rules.similarity, settled);
    }
    ghost var placed := final[..];
    PlacedJoins(sorted, settled, placed);
    PlacedIsReady(sorted, placed, metrics);
    result := Conclude(final, agent.Some?, metrics, tuning, chooser);
  }

  lemma WhichError(photos: seq<Photo>, sorted: seq<Photo>, rules: Assigning.Rules)
    requires Located(photos) && Assigning.InIdOrder(photos, sorted) && Located(sorted)
    requires Assigning.IsAnswer(photos, rules, Assigning.Invalid) || Assigning.IsAnswer(photos, rules, Assigning.NoGpsPhoto)
    ensures Assigning.Rejected(photos, rules)
  {
    hide Located, Assigning.IsAnswer, Assigning.Rejected;
    if Assigning.IsAnswer(photos, rules, Assigning.Invalid) {
      RulesAnswer(photos, sorted, rules, Assigning.Invalid);
    } else {
      RulesAnswer(photos, sorted, rules, Assigning.NoGpsPhoto);
    }
  }
}
