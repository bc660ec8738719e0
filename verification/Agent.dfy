/**
 The organising agent's state and its rounds (`TripView` in app/pipeline/agent/trip.py, the graph
 of `run_agent` in app/pipeline/agent/graph.py).  What the language model answers is arbitrary.
 */
module Agent {
  import opened Sets
  import opened Wrappers
  import opened Photos
  import opened Merging
  import opened TripPlaces
  import opened Numbering
  import opened AgentRuns

  class TripView {
    const photos: array<Photo>
    const similarity: Similarity
    var merged: map<PlaceId, PlaceId>
    var newPlaces: seq<NewPlace>
    ghost var links: seq<Link>

    ghost predicate Valid()
      reads this, photos
    {
      Represents(merged, links) && Chained(links) && SortedById(photos[..]) && DistinctCandidates(newPlaces)
    }

    /** The photos of the trip, already in ID order. */
    constructor (photos: array<Photo>, similarity: Similarity)
      requires SortedById(photos[..])
      ensures Valid() && this.photos == photos && this.similarity == similarity
      ensures merged == map[] && newPlaces == [] && links == []
    {
      this.photos := photos;
      this.similarity := similarity;
      merged := map[];
      newPlaces := [];
      links := [];
    }

    method Canon(place: PlaceId) returns (r: PlaceId)
      requires Valid()
      ensures r == Root(links, place) && r !in merged
    {
      r := place;
      ghost var i := 0;
      while r in merged
        invariant 0 <= i <= |links| && forall k | 0 <= k < i :: links[k].child != r
        invariant Root(links, r) == Root(links, place)
        decreases |links| - i
      {
        ghost var j :| 0 <= j < |links| && links[j].child == r;
        RootOfChild(links, j);
        i := j + 1;
        r := merged[r];
      }
      RootOfLeft(links, r);
    }

    /** The GPS photo of folder `c` most similar to photo `id`. */
    method Nearest(c: PlaceId, id: int) returns (best: Option<nat>)
      requires Valid()
      ensures best.None? ==> !HasAnchor(links, photos[..], c)
      ensures best.Some? ==> IsNearest(links, photos[..], similarity, c, id, best.value)
      ensures best.Some? ==>
                forall b | IsAnchor(links, photos[..], c, b) ::
                  similarity(photos[b].id, id) < similarity(photos[best.value].id, id)
                  || (similarity(photos[b].id, id) == similarity(photos[best.value].id, id) && photos[best.value].id <= photos[b].id)
    {
      best := Option.None;
      for i := 0 to photos.Length
        invariant best.None? ==> forall b | 0 <= b < i :: !IsAnchor(links, photos[..], c, b)
        invariant best.Some? ==>
                    && best.value < i && IsAnchor(links, photos[..], c, best.value)
                    && forall b | 0 <= b < i && IsAnchor(links, photos[..], c, b) ::
                         AsGood(similarity, photos[best.value], photos[b], id)
      {
        if photos[i].origin == Exif && photos[i].place.Some? {
          var r := Canon(photos[i].place.value);
          if r == c && (best.None? || !AsGood(similarity, photos[best.value], photos[i], id)) {
            best := Some(i);
          }
        }
      }
    }

    /** False stands for `PipelineError`: no photo of the folder could give coordinates. */
    method Assign(k: nat, place: PlaceId) returns (ok: bool)
      requires Valid() && k < photos.Length
      modifies photos
      ensures Valid()
      ensures ok <==> HasAnchor(links, old(photos[..]), Root(links, place)) || IsOpened(newPlaces, Root(links, place))
      ensures !ok ==> photos[..] == old(photos[..])
      ensures ok ==>
                && photos[..] == old(photos[..])[k := Placed(old(photos[k]), Root(links, place), photos[k].spot)]
                && SpotFor(links, old(photos[..]), newPlaces, similarity, Root(links, place), photos[k].id, photos[k].spot)
    {
      var c := Canon(place);
      var best := Nearest(c, photos[k].id);
      var spot;
      if best.Some? {
        spot := photos[best.value].spot;
        assert HasAnchor(links, photos[..], c);
      } else if c.New? && 1 <= c.n <= |newPlaces| {
        spot := Some(newPlaces[c.n - 1].spot);
      } else {
        return false;
      }
      ghost var was := photos[..];
      photos[k] := Placed(photos[k], c, spot);
      assert photos[..] == was[k := Placed(was[k], c, spot)];
      return true;
    }

    /** A candidate found before, in any round, is the folder already opened for it. */
    method AddNewPlace(name: string, spot: Spot, candidate: string) returns (place: PlaceId)
      requires Valid() && Grounded(photos[..], newPlaces, links) && SpotInRange(spot)
      modifies this`newPlaces
      ensures Valid() && Grounded(photos[..], newPlaces, links)
      ensures forall k :: newPlaces == Opened(old(newPlaces), Fresh(k, name, spot, candidate))
      ensures OpenedFor(links, newPlaces, candidate, place) && Known(photos[..], newPlaces, place)
      ensures Root(links, place) == place
    {
      for i := 0 to |newPlaces|
        invariant forall j | 0 <= j < i :: newPlaces[j].candidate != candidate
      {
        if newPlaces[i].candidate == candidate {
          place := Canon(New(i + 1));
          RootIsKnown(photos[..], newPlaces, links, New(i + 1));
          RootOfLeft(links, place);
          return;
        }
      }
      place := New(|newPlaces| + 1);
      ghost var was := newPlaces;
      newPlaces := newPlaces + [NewPlace(name, spot, candidate)];
      GroundedGrows(photos[..], was, newPlaces, links);
      assert place !in Children(links);
      RootOfLeft(links, place);
      assert newPlaces[|was|].candidate == candidate;
    }

    /** One accepted proposal of the `aggregate` node. */
    method CarryOut(p: Proposal) returns (ok: bool)
      requires Valid() && Grounded(photos[..], newPlaces, links) && p.photo < photos.Length
      requires IsTarget(photos[p.photo])
      requires p.Existing? ==> Known(photos[..], newPlaces, p.place)
      requires p.Fresh? ==> SpotInRange(p.spot)
      modifies photos, this`newPlaces
      ensures Valid() && Grounded(photos[..], newPlaces, links) && old(newPlaces) <= newPlaces
      ensures ok && Extends(old(photos[..]), photos[..])
      ensures forall k | 0 <= k < photos.Length && k != p.photo :: photos[k] == old(photos[k])
      ensures Honours(links, newPlaces, p, photos[p.photo])
      ensures newPlaces == Opened(old(newPlaces), p)
      ensures PlacedWell(links, old(photos[p.photo]), photos[p.photo], newPlaces, similarity, photos[..])
    {
      var place;
      if p.Existing? {
        place := p.place;
      } else {
        place := AddNewPlace(p.name, p.spot, p.candidate);
      }
      ghost var was := photos[..];
      RootHasCoordinates(was, newPlaces, links, place);
      ok := Assign(p.photo, place);
      ghost var c, q := Root(links, place), photos[p.photo];
      SpotIsSome(links, was, newPlaces, similarity, c, q.id, q.spot);
      RootIsKnown(was, newPlaces, links, place);
      PlacingKeepsGrounded(was, newPlaces, links, p.photo, c, q.spot);
      SpotStays(links, was, photos[..], newPlaces, newPlaces, similarity, c, q.id, q.spot);
    }

    /** What holds when the first `n` accepted proposals have been gone through. */
    ghost predicate Midway(was: seq<Photo>, news: seq<NewPlace>, accepted: seq<Proposal>, n: nat)
      reads this, photos
      requires n <= |accepted| && AllIn(accepted, |was|)
    {
      && Valid() && Grounded(photos[..], newPlaces, links) && news <= newPlaces && Extends(was, photos[..])
      && CarriedOut(links, was, news, accepted, n, newPlaces, similarity, photos[..])
    }

    /** One turn of the loop over the accepted proposals. */
    method Consider(ghost was: seq<Photo>, ghost news: seq<NewPlace>, accepted: seq<Proposal>, i: nat)
      returns (moved: bool, ok: bool)
      requires i < |accepted| && AllIn(accepted, |was|) && Midway(was, news, accepted, i)
      requires Grounded(was, news, links) && Admissible(links, was, accepted[i])
      modifies photos, this`newPlaces
      ensures ok && Midway(was, news, accepted, i + 1)
      ensures |PhotosOf(accepted, i + 1)| == |PhotosOf(accepted, i)| + (if moved then 1 else 0)
    {
      var p := accepted[i];
      if photos[p.photo].place.Some? {
        CarriedOutSkips(links, was, news, accepted, i, newPlaces, similarity, photos[..]);
        return false, true;
      }
      NotYetProposed(links, was, news, accepted, i, newPlaces, similarity, photos[..]);
      if p.Existing? {
        InUseIsKnown(was, news, links, p.place);
        KnownStays(was, photos[..], news, newPlaces, p.place);
      }
      ghost var mid, before := photos[..], newPlaces;
      ok := CarryOut(p);
      ExtendsJoins(was, mid, photos[..]);
      CarriedOutGrows(links, was, news, accepted, i, before, newPlaces, similarity, mid, photos[..]);
      moved := true;
    }

    /**
     The `aggregate` node.  It never reaches the error of `assign`, places every accepted target
     by its first proposal, and touches nothing else.
     */
    method Aggregate(accepted: seq<Proposal>) returns (changed: nat, ok: bool)
      requires Valid() && Grounded(photos[..], newPlaces, links)
      requires AllAdmissible(links, photos[..], accepted)
      modifies photos, this`newPlaces
      ensures Valid() && Grounded(photos[..], newPlaces, links) && old(newPlaces) <= newPlaces
      ensures ok && Extends(old(photos[..]), photos[..]) && AllIn(accepted, |old(photos[..])|)
      ensures CarriedOut(links, old(photos[..]), old(newPlaces), accepted, |accepted|, newPlaces, similarity, photos[..])
      ensures changed == |PhotosOf(accepted, |accepted|)|
    {
      hide Valid, Grounded, Extends, CarriedOut;
      ghost var was := photos[..];
      changed, ok := 0, true;
      NothingYet(links, was, accepted, newPlaces, similarity);
      assert AllIn(accepted, |was|) by {
        forall i | 0 <= i < |accepted| ensures accepted[i].photo < |was| { assert Admissible(links, was, accepted[i]); }
      }
      for i := 0 to |accepted|
        invariant AllIn(accepted, |was|) && Midway(was, old(newPlaces), accepted, i) && ok
        invariant changed == |PhotosOf(accepted, i)|
      {
        assert Admissible(links, was, accepted[i]);
        var moved;
        moved, ok := Consider(was, old(newPlaces), accepted, i);
        if moved { changed := changed + 1; }
      }
    }

    /** `[trip.canon(x) for x in group]`. */
    method Canons(group: seq<PlaceId>) returns (ids: seq<PlaceId>)
      requires Valid()
      ensures ids == Roots(links, group)
    {
      ids := [];
      for i := 0 to |group|
        invariant ids == Roots(links, group)[..i]
      {
        var id := Canon(group[i]);
        ids := ids + [id];
      }
    }

    /** One folder of a group into the first, unless it is there already. */
    method MergeInto(ghost was: seq<Link>, ids: seq<PlaceId>, j: nat)
      requires Valid() && 1 <= j < |ids| && ids[j] !in Children(was)
      requires PartlyGathered(was, ids, j, links) && NewLinksInto(was, ids, j, links)
      modifies this`merged, this`links
      ensures Valid() && PartlyGathered(was, ids, j + 1, links) && NewLinksInto(was, ids, j + 1, links)
    {
      hide PartlyGathered, Represents, Chained;
      RootOfLeft(links, ids[0]);
      var root := Canon(ids[0]);
      if ids[j] != root {
        AnotherLink(was, ids, j, links, merged);
        merged := merged[ids[j] := root];
        if ids[j] !in Children(links) {
          links := links + [Link(ids[j], root)];
        }
      } else {
        SameRoot(was, ids, j, links);
      }
    }

    /** One group of the `merge` node: its folders all go into the first. */
    method MergeGroup(group: seq<PlaceId>)
      requires Valid()
      modifies this`merged, this`links
      ensures Valid() && Gathers(old(links), group, links)
      ensures forall x ::
                if exists i :: 0 <= i < |group| && Root(old(links), group[i]) == Root(old(links), x)
                then Root(links, x) == Root(old(links), group[0]) else Root(links, x) == Root(old(links), x)
      ensures NewLinksAmong(old(links), links, Roots(old(links), group))
    {
      hide Valid, PartlyGathered, NewLinksInto;
      ghost var was := links;
      var ids := Canons(group);
      RootsAreLeft(this, group);
      if ids == [] {
        NothingGathers(was);
        GatheredOntoFirst(was, group, links);
        return;
      }
      GatheringStarts(was, ids);
      for j := 1 to |ids|
        invariant Valid() && PartlyGathered(was, ids, j, links) && NewLinksInto(was, ids, j, links)
      {
        MergeInto(was, ids, j);
      }
      GatheringEnds(was, group, links);
      GatheredOntoFirst(was, group, links);
    }

    /** What `merge` does with the groups the model answered with. */
    method MergeGroups(groups: seq<seq<PlaceId>>)
      requires Valid() && Grounded(photos[..], newPlaces, links)
      requires forall g, p | g in groups && p in g :: Known(photos[..], newPlaces, p)
      modifies this`merged, this`links
      ensures Valid() && Grounded(photos[..], newPlaces, links)
      ensures Closure(old(links), groups, links) && RootsMerged(old(links), groups, links)
    {
      hide Valid, Grounded, Closure, Gathers;
      ClosureStarts(links);
      for i := 0 to |groups|
        invariant Valid() && Grounded(photos[..], newPlaces, links)
        invariant Closure(old(links), groups[..i], links) && RootsMerged(old(links), groups[..i], links)
      {
        ghost var before := links;
        MergeGroup(groups[i]);
        ClosureStep(old(links), groups[..i], groups[i], before, links);
        RootsMergedStep(old(links), groups[..i], groups[i], before, links);
        assert groups[..i + 1] == groups[..i] + [groups[i]];
        assert groups[i] in groups;
        MergingKeepsGrounded(photos[..], newPlaces, before, links, groups[i]);
      }
      assert groups[..|groups|] == groups;
    }

    /** `place in trip.places()`. */
    method IsInUse(p: PlaceId) returns (b: bool)
      requires Valid()
      ensures b <==> InUse(links, photos[..], p)
    {
      for k := 0 to photos.Length
        invariant forall m | 0 <= m < k && photos[m].place.Some? :: Root(links, photos[m].place.value) != p
      {
        if photos[k].place.Some? {
          var r := Canon(photos[k].place.value);
          if r == p { return true; }
        }
      }
      return false;
    }

    /** The model's answer, brought to distinct folders in use. */
    method Admit(raw: seq<PlaceId>) returns (group: seq<PlaceId>)
      requires Valid()
      ensures group == Admitted(links, photos[..], raw)
    {
      hide InUse;
      group := [];
      for i := 0 to |raw|
        invariant group == Admitted(links, photos[..], raw[..i])
      {
        var c := Canon(raw[i]);
        var used := IsInUse(c);
        assert raw[..i + 1][..i] == raw[..i];
        if used && c !in group {
          group := group + [c];
        }
      }
      assert raw[..|raw|] == raw;
    }

    /** Answers that name fewer than two folders in use are dropped. */
    method AdmitAll(raw: seq<seq<PlaceId>>) returns (groups: seq<seq<PlaceId>>)
      requires Valid()
      ensures groups == AdmittedAll(links, photos[..], raw)
      ensures exists kept :: SiftedGroups(links, photos[..], raw, groups, kept)
    {
      groups := [];
      for i := 0 to |raw|
        invariant groups == AdmittedAll(links, photos[..], raw[..i])
      {
        var g := Admit(raw[i]);
        assert raw[..i + 1][..i] == raw[..i];
        if |g| >= 2 { groups := groups + [g]; }
      }
      assert raw[..|raw|] == raw;
      hide SiftedGroups;
      ghost var kept := AdmittedAllIs(links, photos[..], raw);
    }

    /** The first loop of `finish`. */
    method Resolve()
      requires Valid()
      modifies photos
      ensures forall k | 0 <= k < photos.Length :: photos[k] == Resolved(links, old(photos[k]))
    {
      ghost var was := photos[..];
      for k := 0 to photos.Length
        invariant Represents(merged, links) && Chained(links) && SortedById(photos[..])
        invariant forall m | 0 <= m < k :: photos[m] == Resolved(links, was[m])
        invariant forall m | k <= m < photos.Length :: photos[m] == was[m]
      {
        if photos[k].place.Some? {
          var r := Canon(photos[k].place.value);
          ghost var mid := photos[..];
          photos[k] := photos[k].(place := Some(r));
          StillSorted(mid, photos[..]);
        }
      }
    }

    /** `{photo.place_id for photo in photos if photo.place_id}`. */
    method PlacesUsed() returns (used: set<PlaceId>)
      ensures used == UsedRoots([], photos[..])
    {
      used := {};
      for k := 0 to photos.Length
        invariant used == UsedRoots([], photos[..k])
      {
        assert photos[..k + 1] == photos[..k] + [photos[k]];
        UsedRootsAppend([], photos[..k], photos[k]);
        if photos[k].place.Some? { used := used + {photos[k].place.value}; }
      }
      assert photos[..photos.Length] == photos[..];
    }

    /** The last loop of `finish`. */
    method Rename(mapping: map<PlaceId, PlaceId>)
      requires forall k | 0 <= k < photos.Length && photos[k].place.Some? :: photos[k].place.value in mapping
      modifies photos
      ensures forall k | 0 <= k < photos.Length :: photos[k] == Relabelled(mapping, old(photos[k]))
    {
      ghost var mid := photos[..];
      for k := 0 to photos.Length
        invariant forall m | 0 <= m < k :: photos[m] == Relabelled(mapping, mid[m])
        invariant forall m | k <= m < photos.Length :: photos[m] == mid[m]
      {
        photos[k] := Relabelled(mapping, photos[k]);
      }
    }

    /** `finish`: merges are written into the photos and the folders in use renumbered from p1. */
    method Finish()
      requires Valid()
      modifies photos
      ensures forall k | 0 <= k < photos.Length :: photos[k] == Finished(links, old(photos[..]), old(photos[k]))
    {
      hide Resolved, Finished, Relabelled, Renumbered;
      ghost var was := photos[..];
      Resolve();
      ghost var mid := photos[..];
      ResolvedRoots(links, was, mid);
      var used := PlacesUsed();
      var order := SortPlaces(used);
      var mapping := Numbers(order);
      forall k | 0 <= k < photos.Length
        ensures photos[k].place.Some? ==> photos[k].place.value in mapping
        ensures Finished(links, was, was[k]) == Relabelled(mapping, mid[k])
      {
        FinishedFrom(links, was, mid, mapping, k);
      }
      Rename(mapping);
    }

    /** `estimate` as far as it matters here: answers about targets, naming folders in use. */
    method Vet(raw: seq<Proposal>) returns (vetted: seq<Proposal>)
      requires Valid()
      ensures vetted == Vetted(links, photos[..], raw)
      ensures exists kept :: Sifted(links, photos[..], raw, vetted, kept)
    {
      hide InUse, IsTarget;
      vetted := [];
      for i := 0 to |raw|
        invariant vetted == Vetted(links, photos[..], raw[..i])
      {
        var p := raw[i];
        assert raw[..i + 1][..i] == raw[..i];
        if p.photo < photos.Length && IsTarget(photos[p.photo]) {
          match p
          case Existing(photo, place) =>
            var c := Canon(place);
            var used := IsInUse(c);
            if used { vetted := vetted + [Existing(photo, c)]; }
          case Fresh(_, _, _, _) =>
            vetted := vetted + [p];
        }
      }
      assert raw[..|raw|] == raw;
      hide Sifted;
      ghost var kept := VettedIs(links, photos[..], raw);
    }

    method HasTarget() returns (b: bool)
      ensures b <==> AnyTarget(photos[..])
    {
      for k := 0 to photos.Length
        invariant forall m | 0 <= m < k :: !IsTarget(photos[m])
      {
        if IsTarget(photos[k]) { return true; }
      }
      return false;
    }

    method PlaceCount() returns (n: nat)
      requires Valid()
      ensures n == |UsedRoots(links, photos[..])|
    {
      var used := {};
      for k := 0 to photos.Length
        invariant used == UsedRoots(links, photos[..k])
      {
        assert photos[..k + 1] == photos[..k] + [photos[k]];
        UsedRootsAppend(links, photos[..k], photos[k]);
        if photos[k].place.Some? {
          var r := Canon(photos[k].place.value);
          used := used + {r};
        }
      }
      assert photos[..photos.Length] == photos[..];
      return |used|;
    }

    /** The state the nodes of the graph work on. */
    ghost function Now(): View
      reads this, photos
    {
      View(photos[..], merged, links, newPlaces)
    }

    /** The `merge` node: with two or more folders in use, ask which belong together. */
    method MergeOnce(model: Model) returns (groups: seq<seq<PlaceId>>)
      requires Valid() && Grounded(photos[..], newPlaces, links)
      modifies this`merged, this`links
      ensures Valid() && Grounded(photos[..], newPlaces, links)
      ensures groups == MergeAnswer(model, old(Now())) && MergeLeads(groups, old(Now()), Now())
    {
      groups := [];
      var count := PlaceCount();
      if count >= 2 {
        groups := AdmitAll(model.merge(photos[..], merged));
        AdmittedAreInUse(links, photos[..], model.merge(photos[..], merged));
        forall g, p | g in groups && p in g ensures Known(photos[..], newPlaces, p) {
          InUseIsKnown(photos[..], newPlaces, links, p);
        }
      }
      MergeGroups(groups);
    }

    /**
     The nodes of the graph before `finish`: rounds of estimates while they change something, one
     merge, one more estimate.  `log` is the path taken, with the state at every node.
     */
    method Rounds(model: Model) returns (rounds: nat, groups: seq<seq<PlaceId>>, ghost log: seq<Visit>)
      requires Valid() && Grounded(photos[..], newPlaces, links) && links == [] && Sound(model)
      modifies this`merged, this`links, this`newPlaces, photos
      ensures Valid() && Grounded(photos[..], newPlaces, links)
      ensures Trace(model, similarity, log) && log[0].view == old(Now())
      ensures Last(log).node == End && Last(log).view == Now() && Last(log).groups == groups
      ensures Extends(old(photos[..]), photos[..]) && Closure([], groups, links)
      ensures Ran(log, Merge) == 1 && Ran(log, Estimate) == rounds <= 6 && |log| <= 64
      ensures rounds == 0 <==> !AnyTarget(old(photos[..]))
    {
      hide Valid, Grounded, Extends, Closure, SortedById, IsTarget, Trace, AnyTarget, AllAdmissible, Admissible, InRange,
        Sound, Ran, InUse, Vetted, MergeAnswer, MergeLeads, AggregateLeads;
      ghost var was := photos[..];
      var node, round, final := Select, 0, false;
      var accepted: seq<Proposal> := [];
      rounds, groups, log := 0, [], [Start(Now())];
      ExtendsSelf(was);
      TraceStarts(model, similarity, Now());
      while node != End
        invariant Valid() && Grounded(photos[..], newPlaces, links) && Extends(was, photos[..])
        invariant !final ==> links == [] && groups == []
        invariant final ==> Closure([], groups, links)
        invariant log != [] && Trace(model, similarity, log) && log[0].view == old(Now())
        invariant Last(log) == Visit(node, round, final, accepted, groups, Now())
        invariant Ran(log, Merge) == (if final then 1 else 0) && Ran(log, Estimate) == rounds
        invariant node == End ==> final
        invariant VisitsOk(node, round, final, rounds, |log| - 1)
        invariant rounds > 0 || node == Estimate ==> AnyTarget(was)
        invariant AnyTarget(was) ==> rounds > 0 || node == Estimate || (node == Select && photos[..] == was)
        invariant node == Node.Aggregate ==> AllAdmissible(links, photos[..], accepted)
        decreases !final, MAX_ROUNDS + 1 - round, Remaining(node)
      {
        match node {
        case Select =>
          round := round + 1;
          accepted := [];
          var some := HasTarget();
          if some { NoNewTargets(was, photos[..]); }
          node := if some then Estimate else if final then End else Merge;
        case Estimate =>
          rounds := rounds + 1;
          SoundAnswers(model, round, photos[..], merged);
          VettedIsAdmissible(links, photos[..], model.accept(round, photos[..], merged));
          accepted := Vet(model.accept(round, photos[..], merged));
          node := Node.Aggregate;
        case Aggregate =>
          ghost var mid := photos[..];
          var changed, ok := AggregateNode(accepted);
          ExtendsJoins(was, mid, photos[..]);
          node := if final then End else if changed > 0 && round < MAX_ROUNDS then Select else Merge;
        case Merge =>
          ghost var before := Now();
          groups := MergeOnce(model);
          MergeCloses(groups, before, Now());
          final := true;
          node := Select;
        }
        TraceGrows(model, similarity, log, Visit(node, round, final, accepted, groups, Now()));
        log := log + [Visit(node, round, final, accepted, groups, Now())];
      }
    }

    /** `aggregate` as a node of the graph. */
    method AggregateNode(accepted: seq<Proposal>) returns (changed: nat, ok: bool)
      requires Valid() && Grounded(photos[..], newPlaces, links) && AllAdmissible(links, photos[..], accepted)
      modifies photos, this`newPlaces
      ensures Valid() && Grounded(photos[..], newPlaces, links) && Extends(old(photos[..]), photos[..]) && ok
      ensures AggregateLeads(similarity, accepted, old(Now()), Now())
      ensures changed == 0 <==> accepted == []
    {
      hide Valid, Grounded, Extends, CarriedOut, AllAdmissible;
      changed, ok := Aggregate(accepted);
      SomePhoto(accepted);
    }

    /**
     `run_agent`.  It is skipped exactly when there is nothing to ask.  Otherwise a run of the graph
     decides everything, and `finish` writes it into the photos; no error is possible.
     */
    method Run(model: Model) returns (skipped: bool, groups: seq<seq<PlaceId>>, ghost log: seq<Visit>)
      requires Valid() && Grounded(photos[..], newPlaces, links) && links == [] && Sound(model)
      modifies this`merged, this`links, this`newPlaces, photos
      ensures skipped <==> !AnyTarget(old(photos[..])) && |UsedRoots([], old(photos[..]))| < 2
      ensures skipped ==> photos[..] == old(photos[..])
      ensures !skipped ==> ComesFrom(model, similarity, old(Now()), log, groups, photos[..])
      ensures !skipped ==> Organised(groups, old(photos[..]), photos[..])
      ensures forall k | 0 <= k < photos.Length :: PhotoOk(photos[k])
    {
      log := [];
      var some := HasTarget();
      var count := PlaceCount();
      if !some && count < 2 { return true, [], []; }
      ghost var was := photos[..];
      var rounds;
      rounds, groups, log := Rounds(model);
      ghost var placed := photos[..];
      Finish();
      FinishOrganises(groups, links, was, placed, photos[..]);
      FinishKeepsPhotosOk(links, placed, photos[..], newPlaces);
      skipped := false;
    }
  }

  /** The photos come out of a finished run of the graph, with merges written in and folders renumbered. */
  ghost predicate ComesFrom(model: Model, similarity: Similarity, start: View, log: seq<Visit>, groups: seq<seq<PlaceId>>,
                       photos: seq<Photo>)
  {
    && Trace(model, similarity, log) && log[0].view == start
    && Last(log).node == End && Last(log).groups == groups
    && var placed := Last(log).view;
       |photos| == |placed.photos|
       && forall k | 0 <= k < |photos| :: photos[k] == Finished(placed.links, placed.photos, placed.photos[k])
  }

  lemma MergeCloses(groups: seq<seq<PlaceId>>, v: View, w: View)
    requires MergeLeads(groups, v, w)
    ensures Closure(v.links, groups, w.links) && w.photos == v.photos && w.news == v.news
  {}

  lemma SomePhoto(accepted: seq<Proposal>)
    ensures |PhotosOf(accepted, |accepted|)| == 0 <==> accepted == []
  {
    if accepted != [] { assert accepted[0].photo in PhotosOf(accepted, |accepted|); }
  }

  /** Only folders of `ids` took part in the links made since `was`. */
  ghost predicate NewLinksAmong(was: seq<Link>, links: seq<Link>, ids: seq<PlaceId>) {
    was <= links && forall i | |was| <= i < |links| :: links[i].child in ids && links[i].parent in ids
  }

  ghost predicate PartlyGathered(was: seq<Link>, ids: seq<PlaceId>, j: nat, links: seq<Link>)
    requires 1 <= j <= |ids|
  {
    forall x :: Root(links, x) == if Root(was, x) in ids[1..j] then ids[0] else Root(was, x)
  }

  ghost predicate NewLinksInto(was: seq<Link>, ids: seq<PlaceId>, j: nat, links: seq<Link>)
    requires 1 <= j <= |ids|
  {
    && was <= links && ids[0] !in Children(links)
    && (forall i | |was| <= i < |links| :: links[i].parent == ids[0] && links[i].child in ids[1..j])
  }

  lemma RootsAreLeft(trip: TripView, group: seq<PlaceId>)
    requires trip.Valid()
    ensures forall i | 0 <= i < |group| :: Roots(trip.links, group)[i] !in Children(trip.links)
  {
    forall i | 0 <= i < |group| ensures Roots(trip.links, group)[i] !in Children(trip.links) {
      RootIsLeft(trip.links, group[i]);
    }
  }

  /** A folder whose root the group names goes where the first folder of the group is; all others stay. */
  lemma GatheredOntoFirst(before: seq<Link>, group: seq<PlaceId>, after: seq<Link>)
    requires Gathers(before, group, after)
    ensures forall x ::
              if exists i :: 0 <= i < |group| && Root(before, group[i]) == Root(before, x)
              then Root(after, x) == Root(before, group[0]) else Root(after, x) == Root(before, x)
  {
    hide Root;
    forall x ensures Root(before, x) in Roots(before, group) <==>
                     exists i :: 0 <= i < |group| && Root(before, group[i]) == Root(before, x)
    {
      if i :| 0 <= i < |group| && Root(before, group[i]) == Root(before, x) {
        assert Roots(before, group)[i] == Root(before, x);
      }
    }
  }

  lemma NothingGathers(links: seq<Link>)
    ensures Gathers(links, [], links) && NewLinksAmong(links, links, [])
  {}

  lemma GatheringStarts(was: seq<Link>, ids: seq<PlaceId>)
    requires |ids| > 0 && ids[0] !in Children(was)
    ensures PartlyGathered(was, ids, 1, was) && NewLinksInto(was, ids, 1, was)
  {}

  lemma GatheringEnds(was: seq<Link>, group: seq<PlaceId>, links: seq<Link>)
    requires |group| > 0
    requires var ids := Roots(was, group); PartlyGathered(was, ids, |ids|, links) && NewLinksInto(was, ids, |ids|, links)
    ensures Gathers(was, group, links) && NewLinksAmong(was, links, Roots(was, group))
  {
    var ids := Roots(was, group);
    assert ids == [ids[0]] + ids[1..];
    forall p ensures p in ids <==> p == ids[0] || p in ids[1..] {}
  }

  lemma SameRoot(was: seq<Link>, ids: seq<PlaceId>, j: nat, links: seq<Link>)
    requires 1 <= j < |ids| && ids[j] == ids[0]
    requires PartlyGathered(was, ids, j, links) && NewLinksInto(was, ids, j, links)
    ensures PartlyGathered(was, ids, j + 1, links) && NewLinksInto(was, ids, j + 1, links)
  {
    assert ids[1..j + 1] == ids[1..j] + [ids[j]];
  }

  lemma AnotherLink(was: seq<Link>, ids: seq<PlaceId>, j: nat, links: seq<Link>, merged: map<PlaceId, PlaceId>)
    requires 1 <= j < |ids| && ids[j] != ids[0] && ids[j] !in Children(was)
    requires Represents(merged, links) && Chained(links)
    requires PartlyGathered(was, ids, j, links) && NewLinksInto(was, ids, j, links)
    ensures ids[j] in Children(links) ==>
              && merged[ids[j] := ids[0]] == merged
              && PartlyGathered(was, ids, j + 1, links) && NewLinksInto(was, ids, j + 1, links)
    ensures var more := links + [Link(ids[j], ids[0])];
            ids[j] !in Children(links) ==>
              && Represents(merged[ids[j] := ids[0]], more) && Chained(more)
              && PartlyGathered(was, ids, j + 1, more) && NewLinksInto(was, ids, j + 1, more)
  {
    assert ids[1..j + 1] == ids[1..j] + [ids[j]];
    if ids[j] in Children(links) {
      assert forall k | 0 <= k < |was| :: links[k].child == was[k].child && was[k].child in Children(was);
      var i :| 0 <= i < |links| && links[i].child == ids[j];
      assert i >= |was|;
    } else {
      var more := links + [Link(ids[j], ids[0])];
      forall x ensures Root(more, x) == if Root(was, x) in ids[1..j + 1] then ids[0] else Root(was, x) {
        RootAppend(links, Link(ids[j], ids[0]), x);
      }
      LinkAdded(links, merged, ids[j], ids[0]);
    }
  }

  lemma LinkAdded(links: seq<Link>, merged: map<PlaceId, PlaceId>, child: PlaceId, parent: PlaceId)
    requires Represents(merged, links) && Chained(links)
    requires child != parent && child !in Children(links) && parent !in Children(links)
    ensures Represents(merged[child := parent], links + [Link(child, parent)]) && Chained(links + [Link(child, parent)])
    ensures Children(links + [Link(child, parent)]) == Children(links) + {child}
  {
    var more := links + [Link(child, parent)];
    assert more[|links|].child == child;
    assert forall i | 0 <= i < |links| :: links[i].child in Children(links);
    assert Children(more) == Children(links) + {child} by {
      forall p ensures p in Children(more) <==> p in Children(links) + {child} {
        if p in Children(links) {
          var i :| 0 <= i < |links| && links[i].child == p;
          assert more[i].child == p;
        }
      }
    }
  }

  lemma MergingKeepsGrounded(photos: seq<Photo>, news: seq<NewPlace>, before: seq<Link>, after: seq<Link>,
                             group: seq<PlaceId>)
    requires Grounded(photos, news, before) && NewLinksAmong(before, after, Roots(before, group))
    requires forall p | p in group :: Known(photos, news, p)
    ensures Grounded(photos, news, after)
  {
    forall p | p in Roots(before, group) ensures Known(photos, news, p) {
      var i :| 0 <= i < |group| && Root(before, group[i]) == p;
      RootIsKnown(photos, news, before, group[i]);
    }
    forall i | 0 <= i < |after| ensures Known(photos, news, after[i].child) && Known(photos, news, after[i].parent) {
      if i < |before| { assert after[i] == before[i]; }
    }
  }

  // ---------- Renumbering

  function Resolved(links: seq<Link>, p: Photo): Photo {
    if p.place.Some? then p.(place := Some(Root(links, p.place.value))) else p
  }

  function Finished(links: seq<Link>, photos: seq<Photo>, p: Photo): Photo {
    if p.place.Some? then p.(place := Some(Renumbered(UsedRoots(links, photos), Root(links, p.place.value)))) else p
  }

  lemma UsedRootsAppend(links: seq<Link>, photos: seq<Photo>, p: Photo)
    ensures UsedRoots(links, photos + [p]) ==
            UsedRoots(links, photos) + (if p.place.Some? then {Root(links, p.place.value)} else {})
  {
    var more := photos + [p];
    forall r ensures r in UsedRoots(links, more) <==>
                     r in UsedRoots(links, photos) + (if p.place.Some? then {Root(links, p.place.value)} else {})
    {
      if r in UsedRoots(links, photos) {
        var k :| 0 <= k < |photos| && photos[k].place.Some? && Root(links, photos[k].place.value) == r;
        assert more[k] == photos[k];
      }
      if p.place.Some? { assert more[|photos|] == p; }
    }
  }

  lemma ResolvedRoots(links: seq<Link>, was: seq<Photo>, mid: seq<Photo>)
    requires |mid| == |was| && forall k | 0 <= k < |was| :: mid[k] == Resolved(links, was[k])
    ensures UsedRoots([], mid) == UsedRoots(links, was)
  {
    forall k | 0 <= k < |was| && was[k].place.Some?
      ensures mid[k].place.Some? && Root([], mid[k].place.value) == Root(links, was[k].place.value)
    {}
    forall r ensures r in UsedRoots([], mid) <==> r in UsedRoots(links, was) {
      if r in UsedRoots(links, was) {
        var k :| 0 <= k < |was| && was[k].place.Some? && Root(links, was[k].place.value) == r;
        assert mid[k].place.Some? && Root([], mid[k].place.value) == r;
      }
    }
  }

  function Relabelled(mapping: map<PlaceId, PlaceId>, p: Photo): Photo {
    if p.place.Some? && p.place.value in mapping then p.(place := Some(mapping[p.place.value])) else p
  }

  lemma FinishedFrom(links: seq<Link>, was: seq<Photo>, mid: seq<Photo>, mapping: map<PlaceId, PlaceId>, k: nat)
    requires |mid| == |was| && k < |was| && mid[k] == Resolved(links, was[k])
    requires mapping.Keys == UsedRoots(links, was)
    requires forall p | p in mapping :: mapping[p] == Renumbered(UsedRoots(links, was), p)
    ensures mid[k].place.Some? ==> mid[k].place.value in mapping
    ensures Finished(links, was, was[k]) == Relabelled(mapping, mid[k])
  {
    hide Renumbered;
    if was[k].place.Some? { assert Root(links, was[k].place.value) in UsedRoots(links, was); }
  }

  lemma StillSorted(before: seq<Photo>, after: seq<Photo>)
    requires |before| == |after| && SortedById(before) && forall k | 0 <= k < |before| :: after[k].id == before[k].id
    ensures SortedById(after)
  {}

  /** What a whole run does to the folders. */
  ghost predicate Organised(groups: seq<seq<PlaceId>>, before: seq<Photo>, after: seq<Photo>) {
    && |before| == |after| && (forall i | 0 <= i < |before| :: SamePicture(before[i], after[i]))
    && (forall i, j | 0 <= i < |before| && 0 <= j < |before| && before[i].place.Some? && before[j].place.Some? ::
          && after[i].place.Some? && after[j].place.Some?
          && (after[i].place == after[j].place <==>
              Connected([], groups, before[i].place.value, before[j].place.value)))
    && (forall i | 0 <= i < |before| && before[i].place.Some? :: after[i] == before[i].(place := after[i].place))
    && (forall i | 0 <= i < |before| && after[i].place.None? :: after[i] == before[i])
    && (forall i | 0 <= i < |before| && before[i].place.None? && before[i].hasGps :: after[i] == before[i])
    && NumberedFromOne(after)
  }

  /** With k folders in use, every folder is one of p1..pk. */
  ghost predicate NumberedFromOne(photos: seq<Photo>) {
    exists k: nat :: (forall p :: p in FirstFolders(k) <==> exists i :: 0 <= i < |photos| && photos[i].place == Some(p))
  }

  /** With nothing merged and nothing opened, folders p1..pk keep their numbers. */
  lemma FinishKeepsNumbers(photos: seq<Photo>, k: nat, i: nat)
    requires UsedRoots([], photos) == FirstFolders(k) && i < |photos|
    ensures Finished([], photos, photos[i]) == photos[i]
  {
    if photos[i].place.Some? {
      assert Root([], photos[i].place.value) in UsedRoots([], photos);
      NumbersStay(k, photos[i].place.value);
    }
  }

  lemma FinishKeepsPhotosOk(links: seq<Link>, placed: seq<Photo>, after: seq<Photo>, news: seq<NewPlace>)
    requires Grounded(placed, news, links) && |placed| == |after|
    requires forall k | 0 <= k < |placed| :: after[k] == Finished(links, placed, placed[k])
    ensures forall k | 0 <= k < |after| :: PhotoOk(after[k])
  {
    forall k | 0 <= k < |after| ensures PhotoOk(after[k]) { assert PhotoOk(placed[k]); }
  }

  lemma FinishSeparates(links: seq<Link>, placed: seq<Photo>, after: seq<Photo>, i: nat, j: nat)
    requires |placed| == |after| && i < |placed| && j < |placed| && placed[i].place.Some? && placed[j].place.Some?
    requires forall k | 0 <= k < |placed| :: after[k] == Finished(links, placed, placed[k])
    ensures after[i].place == after[j].place <==>
            Root(links, placed[i].place.value) == Root(links, placed[j].place.value)
  {
    RenumberingKeepsOrder(UsedRoots(links, placed), Root(links, placed[i].place.value), Root(links, placed[j].place.value));
  }

  lemma FinishNumbers(links: seq<Link>, placed: seq<Photo>, after: seq<Photo>)
    requires |placed| == |after|
    requires forall k | 0 <= k < |placed| :: after[k] == Finished(links, placed, placed[k])
    ensures NumberedFromOne(after)
  {
    var used := UsedRoots(links, placed);
    AllNumbersTaken(used);
    forall p ensures p in FirstFolders(|used|) <==> exists i :: 0 <= i < |after| && after[i].place == Some(p) {
      if p in FirstFolders(|used|) {
        assert p in Renamed(used, used);
        var r :| r in used && Renumbered(used, r) == p;
        var k :| 0 <= k < |placed| && placed[k].place.Some? && Root(links, placed[k].place.value) == r;
        assert after[k].place == Some(p);
      } else {
        forall i | 0 <= i < |after| ensures after[i].place != Some(p) {
          if placed[i].place.Some? {
            var r := Root(links, placed[i].place.value);
            assert r in used && Renumbered(used, r) in Renamed(used, used);
          }
        }
      }
    }
  }

  lemma FinishOrganises(groups: seq<seq<PlaceId>>, links: seq<Link>, before: seq<Photo>, placed: seq<Photo>,
                        after: seq<Photo>)
    requires Extends(before, placed) && Closure([], groups, links) && |placed| == |after|
    requires forall k | 0 <= k < |before| :: PhotoOk(before[k])
    requires forall k | 0 <= k < |placed| :: after[k] == Finished(links, placed, placed[k])
    requires forall k | 0 <= k < |placed| && before[k] != placed[k] :: placed[k].place.Some?
    ensures Organised(groups, before, after)
  {
    hide UsedRoots, Renumbered;
    FinishNumbers(links, placed, after);
    forall i, j | 0 <= i < |before| && 0 <= j < |before| && before[i].place.Some? && before[j].place.Some?
      ensures after[i].place.Some? && after[j].place.Some?
      ensures after[i].place == after[j].place <==> Connected([], groups, before[i].place.value, before[j].place.value)
    {
      FinishSeparates(links, placed, after, i, j);
    }
  }

  method Numbers(order: seq<PlaceId>) returns (mapping: map<PlaceId, PlaceId>)
    requires Ordered(order)
    ensures mapping.Keys == Elements(order)
    ensures forall p | p in mapping :: mapping[p] == Renumbered(Elements(order), p)
  {
    mapping := map[];
    for i := 0 to |order|
      invariant mapping.Keys == Elements(order[..i])
      invariant forall p | p in mapping :: mapping[p] == Renumbered(Elements(order), p)
    {
      OrderedPosition(order, i);
      assert order[..i + 1] == order[..i] + [order[i]];
      mapping := mapping[order[i] := Folder(i + 1)];
    }
    assert order[..|order|] == order;
  }
}
