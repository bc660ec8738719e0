/**
 What a run of the organising agent is: the model's answers, the nodes of the graph (`run_agent`
 in app/pipeline/agent/graph.py) and the effect of each on the photos and folders.
 */
module AgentRuns {
  import opened Sets
  import opened Wrappers
  import opened Photos
  import opened Merging
  import opened TripPlaces

  /** A target photo, by index, to be put into a folder in use or into one opened for a candidate. */
  datatype Proposal =
    | Existing(photo: nat, place: PlaceId)
    | Fresh(photo: nat, name: string, spot: Spot, candidate: string)

  ghost predicate DistinctCandidates(news: seq<NewPlace>) {
    forall i, j | 0 <= i < j < |news| :: news[i].candidate != news[j].candidate
  }

  /** Folder `c` is the one opened for this candidate. */
  ghost predicate OpenedFor(links: seq<Link>, news: seq<NewPlace>, candidate: string, c: PlaceId) {
    exists i :: 0 <= i < |news| && news[i].candidate == candidate && c == Root(links, New(i + 1))
  }

  /** `targets()`: no GPS, no folder, location unclear. */
  predicate IsTarget(p: Photo) {
    p.place.None? && p.issue == Some(UnclearLocation) && !p.hasGps
  }

  ghost predicate AnyTarget(photos: seq<Photo>) {
    exists k :: 0 <= k < |photos| && IsTarget(photos[k])
  }

  ghost predicate Admissible(links: seq<Link>, photos: seq<Photo>, p: Proposal) {
    && p.photo < |photos| && IsTarget(photos[p.photo])
    && (p.Existing? ==> InUse(links, photos, p.place))
    && (p.Fresh? ==> SpotInRange(p.spot))
  }

  ghost predicate AllAdmissible(links: seq<Link>, photos: seq<Photo>, accepted: seq<Proposal>) {
    forall i | 0 <= i < |accepted| :: Admissible(links, photos, accepted[i])
  }

  /** A photo a proposal was carried out for is where the proposal says. */
  ghost predicate Honours(links: seq<Link>, news: seq<NewPlace>, p: Proposal, photo: Photo) {
    && photo.place.Some?
    && match p
       case Existing(_, place) => photo.place.value == Root(links, place)
       case Fresh(_, _, _, candidate) => OpenedFor(links, news, candidate, photo.place.value)
  }

  /** The first proposal for its photo among the first `n`. */
  ghost predicate IsFirst(accepted: seq<Proposal>, n: nat, j: nat)
    requires n <= |accepted|
  {
    j < n && forall i | 0 <= i < j :: accepted[i].photo != accepted[j].photo
  }

  ghost predicate AllIn(accepted: seq<Proposal>, count: nat) {
    forall i | 0 <= i < |accepted| :: accepted[i].photo < count
  }

  /** The folders opened once a proposal is carried out: one more for a candidate not seen before. */
  function Opened(news: seq<NewPlace>, p: Proposal): seq<NewPlace> {
    if p.Fresh? && forall i | 0 <= i < |news| :: news[i].candidate != p.candidate
    then news + [NewPlace(p.name, p.spot, p.candidate)] else news
  }

  /** The folders opened by the first `n` accepted proposals; only the first for a photo is carried out. */
  ghost function OpenedAfter(news: seq<NewPlace>, accepted: seq<Proposal>, n: nat): (r: seq<NewPlace>)
    requires n <= |accepted|
    ensures news <= r
  {
    if n == 0 then news
    else
      var before := OpenedAfter(news, accepted, n - 1);
      if IsFirst(accepted, n, n - 1) then Opened(before, accepted[n - 1]) else before
  }

  /** What carrying out accepted proposals does to one photo. */
  ghost predicate PlacedWell(links: seq<Link>, before: Photo, after: Photo, news: seq<NewPlace>, similarity: Similarity,
                             photos: seq<Photo>)
  {
    && after.place.Some? && after == Placed(before, after.place.value, after.spot)
    && SpotFor(links, photos, news, similarity, after.place.value, after.id, after.spot)
  }

  /** The whole effect of carrying out the first `n` accepted proposals. */
  ghost predicate CarriedOut(links: seq<Link>, before: seq<Photo>, start: seq<NewPlace>, accepted: seq<Proposal>, n: nat,
                             news: seq<NewPlace>, similarity: Similarity, after: seq<Photo>)
    requires n <= |accepted| && |before| == |after| && AllIn(accepted, |before|)
  {
    && news == OpenedAfter(start, accepted, n)
    && (forall k | 0 <= k < |before| && (forall i | 0 <= i < n :: accepted[i].photo != k) :: after[k] == before[k])
    && (forall j: nat | IsFirst(accepted, n, j) && before[accepted[j].photo].place.None? ::
          Honours(links, news, accepted[j], after[accepted[j].photo]))
    && (forall k | 0 <= k < |before| && before[k] != after[k] ::
          PlacedWell(links, before[k], after[k], news, similarity, after))
  }

  /** The photos the first `n` proposals are about. */
  function PhotosOf(accepted: seq<Proposal>, n: nat): set<nat>
    requires n <= |accepted|
  {
    set i | 0 <= i < n :: accepted[i].photo
  }

  /** The language model: which proposals it stands by in a round, which folders it calls one. */
  datatype Model = Model(
    accept: (nat, seq<Photo>, map<PlaceId, PlaceId>) -> seq<Proposal>,
    merge: (seq<Photo>, map<PlaceId, PlaceId>) -> seq<seq<PlaceId>>)

  predicate InRange(proposals: seq<Proposal>) {
    forall i | 0 <= i < |proposals| && proposals[i].Fresh? :: SpotInRange(proposals[i].spot)
  }

  /** Candidates come out of a place search, with coordinates on the globe. */
  ghost predicate Sound(model: Model) {
    forall round, photos, merged :: InRange(model.accept(round, photos, merged))
  }

  lemma SoundAnswers(model: Model, round: nat, photos: seq<Photo>, merged: map<PlaceId, PlaceId>)
    requires Sound(model)
    ensures InRange(model.accept(round, photos, merged))
  {}

  // ---------- What is kept of the model's answers

  /** About a target, and for an existing folder one in use. */
  ghost predicate Keeps(links: seq<Link>, photos: seq<Photo>, p: Proposal) {
    && p.photo < |photos| && IsTarget(photos[p.photo])
    && (p.Existing? ==> InUse(links, photos, Root(links, p.place)))
  }

  function Canonical(links: seq<Link>, p: Proposal): Proposal {
    if p.Existing? then Existing(p.photo, Root(links, p.place)) else p
  }

  /** The proposals of a round that are kept, in order, naming folders by their roots. */
  ghost function Vetted(links: seq<Link>, photos: seq<Photo>, raw: seq<Proposal>): seq<Proposal> {
    if raw == [] then []
    else
      var n := |raw| - 1;
      Vetted(links, photos, raw[..n]) + (if Keeps(links, photos, raw[n]) then [Canonical(links, raw[n])] else [])
  }

  lemma {:induction false} VettedIsAdmissible(links: seq<Link>, photos: seq<Photo>, raw: seq<Proposal>)
    requires InRange(raw)
    ensures AllAdmissible(links, photos, Vetted(links, photos, raw))
    decreases |raw|
  {
    if raw != [] { VettedIsAdmissible(links, photos, raw[..|raw| - 1]); }
  }

  /** About a photo without GPS that has no folder and an unclear location, and, unless it opens one, about a folder in use. */
  ghost predicate Acceptable(links: seq<Link>, photos: seq<Photo>, p: Proposal) {
    && p.photo < |photos|
    && photos[p.photo].place == Option.None && photos[p.photo].issue == Some(UnclearLocation) && !photos[p.photo].hasGps
    && match p
       case Fresh(_, _, _, _) => true
       case Existing(_, place) =>
         exists k :: 0 <= k < |photos| && photos[k].place.Some? && Root(links, photos[k].place.value) == Root(links, place)
  }

  predicate Increasing(kept: seq<nat>, n: nat) {
    && (forall i | 0 <= i < |kept| :: kept[i] < n)
    && (forall i, j | 0 <= i < j < |kept| :: kept[i] < kept[j])
  }

  /** `kept` are the places, in order, of exactly the acceptable proposals; folders go by their roots. */
  ghost predicate Sifted(links: seq<Link>, photos: seq<Photo>, raw: seq<Proposal>, vetted: seq<Proposal>, kept: seq<nat>) {
    && Increasing(kept, |raw|) && |vetted| == |kept|
    && (forall j: nat | j < |raw| :: j in kept <==> Acceptable(links, photos, raw[j]))
    && (forall i | 0 <= i < |kept| ::
          vetted[i] == match raw[kept[i]]
                       case Existing(photo, place) => Existing(photo, Root(links, place))
                       case Fresh(photo, name, spot, candidate) => Fresh(photo, name, spot, candidate))
  }

  /** Every acceptable proposal of a round is kept, in order and as often as it was made, and no other. */
  lemma {:induction false} VettedIs(links: seq<Link>, photos: seq<Photo>, raw: seq<Proposal>) returns (kept: seq<nat>)
    ensures Sifted(links, photos, raw, Vetted(links, photos, raw), kept)
    decreases |raw|
  {
    if raw == [] {
      kept := [];
    } else {
      var n := |raw| - 1;
      kept := VettedIs(links, photos, raw[..n]);
      KeepsAcceptable(links, photos, raw[n]);
      hide Acceptable, Keeps;
      if Keeps(links, photos, raw[n]) { kept := kept + [n]; }
    }
  }

  lemma KeepsAcceptable(links: seq<Link>, photos: seq<Photo>, p: Proposal)
    ensures Keeps(links, photos, p) <==> Acceptable(links, photos, p)
  {}

  /** One group of the answer: the roots of its folders that are in use, each once, in order. */
  ghost function Admitted(links: seq<Link>, photos: seq<Photo>, raw: seq<PlaceId>): seq<PlaceId> {
    if raw == [] then []
    else
      var n := |raw| - 1;
      var before := Admitted(links, photos, raw[..n]);
      var c := Root(links, raw[n]);
      if InUse(links, photos, c) && c !in before then before + [c] else before
  }

  lemma {:induction false} AdmittedIs(links: seq<Link>, photos: seq<Photo>, raw: seq<PlaceId>, p: PlaceId)
    ensures p in Admitted(links, photos, raw) <==> p in Roots(links, raw) && InUse(links, photos, p)
    decreases |raw|
  {
    if raw != [] {
      var n := |raw| - 1;
      AdmittedIs(links, photos, raw[..n], p);
      assert Roots(links, raw) == Roots(links, raw[..n]) + [Root(links, raw[n])];
    }
  }

  /** The groups with two or more folders in use. */
  ghost function AdmittedAll(links: seq<Link>, photos: seq<Photo>, raw: seq<seq<PlaceId>>): seq<seq<PlaceId>> {
    if raw == [] then []
    else
      var n := |raw| - 1;
      var g := Admitted(links, photos, raw[n]);
      AdmittedAll(links, photos, raw[..n]) + (if |g| >= 2 then [g] else [])
  }

  /** The folders of a group come in the order in which the answer names them first, each once. */
  lemma {:induction false} AdmittedInOrder(links: seq<Link>, photos: seq<Photo>, raw: seq<PlaceId>, i: nat, j: nat)
    requires i < j < |Admitted(links, photos, raw)|
    ensures var g := Admitted(links, photos, raw);
            exists a :: 0 <= a < |raw| && Root(links, raw[a]) == g[i] && forall b | 0 <= b <= a :: Root(links, raw[b]) != g[j]
    decreases |raw|
  {
    var n := |raw| - 1;
    var g, before := Admitted(links, photos, raw), Admitted(links, photos, raw[..n]);
    hide Admitted;
    if j < |before| {
      AdmittedInOrder(links, photos, raw[..n], i, j);
      var a :| 0 <= a < n && Root(links, raw[..n][a]) == before[i]
               && forall b | 0 <= b <= a :: Root(links, raw[..n][b]) != before[j];
      assert Root(links, raw[a]) == g[i];
      forall b | 0 <= b <= a ensures Root(links, raw[b]) != g[j] { assert raw[b] == raw[..n][b]; }
    } else {
      AdmittedIs(links, photos, raw[..n], before[i]);
      var a :| 0 <= a < n && Roots(links, raw[..n])[a] == before[i];
      assert Root(links, raw[a]) == g[i];
      forall b | 0 <= b <= a ensures Root(links, raw[b]) != g[j] {
        NotAdmitted(links, photos, raw, b);
      }
    }
  }

  /** What a group ends with was not among the folders named before. */
  lemma NotAdmitted(links: seq<Link>, photos: seq<Photo>, raw: seq<PlaceId>, b: nat)
    requires raw != [] && b < |raw| - 1
    requires |Admitted(links, photos, raw)| > |Admitted(links, photos, raw[..|raw| - 1])|
    ensures Root(links, raw[b]) != Admitted(links, photos, raw)[|Admitted(links, photos, raw)| - 1]
  {
    var n := |raw| - 1;
    AdmittedIs(links, photos, raw[..n], Root(links, raw[b]));
    assert Roots(links, raw[..n])[b] == Root(links, raw[b]);
  }

  /** The group names two different folders in use. */
  ghost predicate NamesTwo(links: seq<Link>, photos: seq<Photo>, raw: seq<PlaceId>) {
    exists a, b ::
      && 0 <= a < |raw| && 0 <= b < |raw| && Root(links, raw[a]) != Root(links, raw[b])
      && InUse(links, photos, Root(links, raw[a])) && InUse(links, photos, Root(links, raw[b]))
  }

  lemma TwoAdmitted(links: seq<Link>, photos: seq<Photo>, raw: seq<PlaceId>)
    ensures |Admitted(links, photos, raw)| >= 2 <==> NamesTwo(links, photos, raw)
  {
    hide InUse, Admitted;
    var g := Admitted(links, photos, raw);
    if |g| >= 2 {
      AdmittedInOrder(links, photos, raw, 0, 1);
      AdmittedIs(links, photos, raw, g[0]);
      AdmittedIs(links, photos, raw, g[1]);
      var a :| 0 <= a < |raw| && Roots(links, raw)[a] == g[0];
      var b :| 0 <= b < |raw| && Roots(links, raw)[b] == g[1];
      assert g[0] != g[1];
    }
    if NamesTwo(links, photos, raw) {
      var a, b :|
        && 0 <= a < |raw| && 0 <= b < |raw| && Root(links, raw[a]) != Root(links, raw[b])
        && InUse(links, photos, Root(links, raw[a])) && InUse(links, photos, Root(links, raw[b]));
      AdmittedIs(links, photos, raw, Root(links, raw[a]));
      AdmittedIs(links, photos, raw, Root(links, raw[b]));
      assert Roots(links, raw)[a] in g && Roots(links, raw)[b] in g;
    }
  }

  /** `kept` are the places, in order, of exactly the groups that name two different folders in use. */
  ghost predicate SiftedGroups(links: seq<Link>, photos: seq<Photo>, raw: seq<seq<PlaceId>>, groups: seq<seq<PlaceId>>,
                               kept: seq<nat>)
  {
    && Increasing(kept, |raw|) && |groups| == |kept|
    && (forall j: nat | j < |raw| :: j in kept <==> NamesTwo(links, photos, raw[j]))
    && (forall i | 0 <= i < |kept| :: groups[i] == Admitted(links, photos, raw[kept[i]]))
  }

  lemma SiftedNext(links: seq<Link>, photos: seq<Photo>, raw: seq<seq<PlaceId>>, groups: seq<seq<PlaceId>>,
                   kept: seq<nat>, g: seq<PlaceId>)
    requires SiftedGroups(links, photos, raw, groups, kept)
    ensures if NamesTwo(links, photos, g)
            then SiftedGroups(links, photos, raw + [g], groups + [Admitted(links, photos, g)], kept + [|raw|])
            else SiftedGroups(links, photos, raw + [g], groups, kept)
  {
    hide NamesTwo, Admitted;
  }

  /** Exactly the groups that name two different folders in use are admitted, in order. */
  lemma {:induction false} AdmittedAllIs(links: seq<Link>, photos: seq<Photo>, raw: seq<seq<PlaceId>>) returns (kept: seq<nat>)
    ensures SiftedGroups(links, photos, raw, AdmittedAll(links, photos, raw), kept)
    decreases |raw|
  {
    hide NamesTwo, Admitted;
    if raw == [] {
      kept := [];
    } else {
      hide SiftedGroups;
      var n := |raw| - 1;
      kept := AdmittedAllIs(links, photos, raw[..n]);
      TwoAdmitted(links, photos, raw[n]);
      SiftedNext(links, photos, raw[..n], AdmittedAll(links, photos, raw[..n]), kept, raw[n]);
      assert raw[..n] + [raw[n]] == raw;
      if NamesTwo(links, photos, raw[n]) { kept := kept + [n]; }
    }
  }

  lemma {:induction false} AdmittedAreInUse(links: seq<Link>, photos: seq<Photo>, raw: seq<seq<PlaceId>>)
    ensures forall g, p | g in AdmittedAll(links, photos, raw) && p in g :: InUse(links, photos, p)
    decreases |raw|
  {
    hide InUse, Admitted;
    if raw != [] {
      var n := |raw| - 1;
      AdmittedAreInUse(links, photos, raw[..n]);
      forall p | p in Admitted(links, photos, raw[n]) ensures InUse(links, photos, p) {
        AdmittedIs(links, photos, raw[n], p);
      }
    }
  }

  /** The groups the `merge` node puts together: none with fewer than two folders in use. */
  ghost function MergeAnswer(model: Model, v: View): seq<seq<PlaceId>> {
    if |UsedRoots(v.links, v.photos)| < 2 then [] else AdmittedAll(v.links, v.photos, model.merge(v.photos, v.merged))
  }

  // ---------- The graph

  datatype Node = Select | Estimate | Aggregate | Merge | End

  const MAX_ROUNDS := 5
  /** `recursion_limit` of the graph; going over it would fail the job. */
  const RECURSION_LIMIT := 64

  /** What the nodes work on. */
  datatype View = View(photos: seq<Photo>, merged: map<PlaceId, PlaceId>, links: seq<Link>, news: seq<NewPlace>)

  /** A node about to run, with the graph's state: `final` once the merge is behind it. */
  datatype Visit = Visit(node: Node, round: nat, final: bool, accepted: seq<Proposal>, groups: seq<seq<PlaceId>>,
                         view: View)

  ghost predicate AggregateLeads(similarity: Similarity, accepted: seq<Proposal>, v: View, w: View) {
    && w.merged == v.merged && w.links == v.links
    && Extends(v.photos, w.photos) && AllIn(accepted, |v.photos|)
    && CarriedOut(v.links, v.photos, v.news, accepted, |accepted|, w.news, similarity, w.photos)
  }

  ghost predicate MergeLeads(groups: seq<seq<PlaceId>>, v: View, w: View) {
    && w.photos == v.photos && w.news == v.news && Represents(w.merged, w.links) && Chained(w.links)
    && RootsMerged(v.links, groups, w.links) && Closure(v.links, groups, w.links)
  }

  /** Node `v` runs, and `w` is next: what it does to the state, and the edge taken. */
  ghost predicate Leads(model: Model, similarity: Similarity, v: Visit, w: Visit) {
    match v.node
    case Select =>
      w == Visit(if AnyTarget(v.view.photos) then Estimate else if v.final then End else Merge,
                 v.round + 1, v.final, [], v.groups, v.view)
    case Estimate =>
      && w == v.(node := Node.Aggregate, accepted := w.accepted)
      && w.accepted == Vetted(v.view.links, v.view.photos, model.accept(v.round, v.view.photos, v.view.merged))
    case Aggregate =>
      && AggregateLeads(similarity, v.accepted, v.view, w.view)
      && w == v.(view := w.view,
                 node := if v.final then End
                         else if v.accepted != [] && v.round < MAX_ROUNDS then Select else Merge)
    case Merge =>
      && MergeLeads(w.groups, v.view, w.view) && w.groups == MergeAnswer(model, v.view)
      && w == v.(node := Select, final := true, groups := w.groups, view := w.view)
    case End => false
  }

  function Start(view: View): Visit {
    Visit(Select, 0, false, [], [], view)
  }

  /** A path through the graph from `Select` on, node after node. */
  ghost predicate Trace(model: Model, similarity: Similarity, log: seq<Visit>) {
    && log != [] && log[0] == Start(log[0].view)
    && forall i | 0 <= i < |log| - 1 :: Leads(model, similarity, log[i], log[i + 1])
  }

  function Last(log: seq<Visit>): Visit
    requires log != []
  {
    log[|log| - 1]
  }

  /** How often a node has run: the last visit is still to come. */
  function Ran(log: seq<Visit>, node: Node): nat {
    if |log| < 2 then 0 else Ran(log[..|log| - 1], node) + (if log[|log| - 2].node == node then 1 else 0)
  }

  lemma TraceGrows(model: Model, similarity: Similarity, log: seq<Visit>, w: Visit)
    requires Trace(model, similarity, log) && Leads(model, similarity, Last(log), w)
    ensures Trace(model, similarity, log + [w]) && Last(log + [w]) == w && (log + [w])[0] == log[0]
    ensures forall node :: Ran(log + [w], node) == Ran(log, node) + (if Last(log).node == node then 1 else 0)
  {
    hide Leads;
    var more := log + [w];
    assert more[..|log|] == log;
    forall i | 0 <= i < |more| - 1 ensures Leads(model, similarity, more[i], more[i + 1]) {}
  }

  lemma TraceStarts(model: Model, similarity: Similarity, view: View)
    ensures Trace(model, similarity, [Start(view)]) && forall node :: Ran([Start(view)], node) == 0
  {}

  /** The merge comes once no target is left, a round has placed nothing, or five rounds are over. */
  lemma MergeWaits(model: Model, similarity: Similarity, log: seq<Visit>, i: nat)
    requires Trace(model, similarity, log) && i < |log| && log[i].node == Merge
    ensures !AnyTarget(log[i].view.photos) || log[i].round >= 5
            || (i >= 1 && log[i - 1].node == Node.Aggregate && log[i - 1].accepted == [])
  {
    assert i >= 1;
    assert Leads(model, similarity, log[i - 1], log[i - 1 + 1]);
  }

  /** Whatever a round asks about: the first acceptable proposal for a photo, at place `j` of the answer. */
  ghost predicate FirstAcceptable(links: seq<Link>, photos: seq<Photo>, raw: seq<Proposal>, j: nat) {
    && j < |raw| && Acceptable(links, photos, raw[j])
    && forall i | 0 <= i < j && raw[i].photo == raw[j].photo :: !Acceptable(links, photos, raw[i])
  }

  /** The photo is where the proposal wants it, merges taken into account. */
  ghost predicate Obeyed(links: seq<Link>, news: seq<NewPlace>, p: Proposal, photo: Photo) {
    && photo.issue == Option.None && photo.origin == Inferred
    && match p
       case Existing(_, place) => photo.place == Some(Root(links, place))
       case Fresh(_, _, _, candidate) =>
         exists n :: 0 <= n < |news| && news[n].candidate == candidate && photo.place == Some(Root(links, New(n + 1)))
  }

  lemma FirstKept(links: seq<Link>, photos: seq<Photo>, raw: seq<Proposal>, vetted: seq<Proposal>, kept: seq<nat>, j: nat)
    returns (m: nat)
    requires Sifted(links, photos, raw, vetted, kept) && FirstAcceptable(links, photos, raw, j)
    ensures m < |vetted| && kept[m] == j && IsFirst(vetted, |vetted|, m) && vetted[m].photo == raw[j].photo
  {
    hide Acceptable;
    m :| 0 <= m < |kept| && kept[m] == j;
    forall i | 0 <= i < m ensures vetted[i].photo != vetted[m].photo {
      assert kept[i] in kept;
    }
  }

  lemma FirstIsObeyed(links: seq<Link>, before: seq<Photo>, start: seq<NewPlace>, vetted: seq<Proposal>, p: Proposal,
                      m: nat, news: seq<NewPlace>, similarity: Similarity, after: seq<Photo>)
    requires Chained(links) && AllIn(vetted, |before|) && |after| == |before|
    requires CarriedOut(links, before, start, vetted, |vetted|, news, similarity, after)
    requires IsFirst(vetted, |vetted|, m) && p.photo == vetted[m].photo && before[p.photo].place.None?
    requires vetted[m] == if p.Existing? then Existing(p.photo, Root(links, p.place)) else p
    ensures Obeyed(links, news, p, after[p.photo])
  {
    var photo := after[p.photo];
    assert Honours(links, news, vetted[m], photo);
    assert PlacedWell(links, before[p.photo], photo, news, similarity, after);
    hide PlacedWell, OpenedAfter;
    match p {
      case Existing(_, place) =>
        RootIsLeft(links, place);
        RootOfLeft(links, Root(links, place));
      case Fresh(_, _, _, candidate) =>
        assert OpenedFor(links, news, candidate, photo.place.value);
    }
  }

  lemma {:induction false} LinksStayChained(model: Model, similarity: Similarity, log: seq<Visit>, i: nat)
    requires Trace(model, similarity, log) && log[0].view.links == [] && i < |log|
    ensures Chained(log[i].view.links)
    decreases i
  {
    hide CarriedOut, Closure, RootsMerged, Extends, AnyTarget, Vetted;
    if i > 0 {
      LinksStayChained(model, similarity, log, i - 1);
      assert Leads(model, similarity, log[i - 1], log[i - 1 + 1]);
    }
  }

  /**
   No acceptable answer is lost: whatever the model says first about a target, whether a folder in
   use or a place not opened yet, is where the photo is once the round has been carried out.
   */
  lemma AnswersTakeEffect(model: Model, similarity: Similarity, log: seq<Visit>, i: nat, j: nat)
    requires Trace(model, similarity, log) && log[0].view.links == [] && i + 2 < |log| && log[i].node == Estimate
    requires var v := log[i].view;
             FirstAcceptable(v.links, v.photos, model.accept(log[i].round, v.photos, v.merged), j)
    ensures var v, w := log[i].view, log[i + 2].view;
            var p := model.accept(log[i].round, v.photos, v.merged)[j];
            w.links == v.links && |w.photos| == |v.photos| && p.photo < |w.photos|
            && Obeyed(v.links, w.news, p, w.photos[p.photo])
  {
    hide CarriedOut, AnyTarget, Extends, FirstAcceptable, Obeyed, Vetted, Sifted, IsFirst;
    var v, w := log[i].view, log[i + 2].view;
    var raw := model.accept(log[i].round, v.photos, v.merged);
    assert Leads(model, similarity, log[i], log[i + 1]);
    assert Leads(model, similarity, log[i + 1], log[i + 1 + 1]);
    var vetted := log[i + 1].accepted;
    var kept := VettedIs(v.links, v.photos, raw);
    var m := FirstKept(v.links, v.photos, raw, vetted, kept, j);
    SiftedAt(v.links, v.photos, raw, vetted, kept, m);
    LinksStayChained(model, similarity, log, i);
    SamePhotos(v.photos, w.photos);
    FirstIsObeyed(v.links, v.photos, v.news, vetted, raw[j], m, w.news, similarity, w.photos);
  }

  lemma SamePhotos(before: seq<Photo>, after: seq<Photo>)
    requires Extends(before, after)
    ensures |after| == |before|
  {}

  lemma SiftedAt(links: seq<Link>, photos: seq<Photo>, raw: seq<Proposal>, vetted: seq<Proposal>, kept: seq<nat>, m: nat)
    requires Sifted(links, photos, raw, vetted, kept) && m < |vetted|
    ensures kept[m] < |raw| && raw[kept[m]].photo < |photos| && photos[raw[kept[m]].photo].place.None?
    ensures vetted[m] == if raw[kept[m]].Existing? then Existing(raw[kept[m]].photo, Root(links, raw[kept[m]].place))
                         else raw[kept[m]]
  {
    assert kept[m] in kept;
  }

  /** Every folder opened on the way is the one some carried-out proposal asked for. */
  lemma {:induction false} OpenedAreProposed(news: seq<NewPlace>, accepted: seq<Proposal>, n: nat, i: nat) returns (j: nat)
    requires n <= |accepted| && |news| <= i < |OpenedAfter(news, accepted, n)|
    ensures var place := OpenedAfter(news, accepted, n)[i];
            j < n && accepted[j] == Fresh(accepted[j].photo, place.name, place.spot, place.candidate)
            && forall k | 0 <= k < j :: accepted[k].photo != accepted[j].photo
    decreases n
  {
    if i < |OpenedAfter(news, accepted, n - 1)| {
      j := OpenedAreProposed(news, accepted, n - 1, i);
    } else {
      j := n - 1;
    }
  }

  /** A finished run leaves targets only if it asked about them once more after the merge. */
  lemma LeftoversWereEstimated(model: Model, similarity: Similarity, log: seq<Visit>)
    requires Trace(model, similarity, log) && Last(log).node == End && AnyTarget(Last(log).view.photos)
    ensures |log| >= 2 && log[|log| - 2].node == Node.Aggregate && log[|log| - 2].final
  {
    assert |log| >= 2;
    assert Leads(model, similarity, log[|log| - 2], log[|log| - 2 + 1]);
  }

  function Remaining(node: Node): nat {
    match node case Estimate => 3 case Aggregate => 2 case Select => 1 case Merge => 1 case End => 0
  }

  ghost predicate VisitsOk(node: Node, round: nat, final: bool, rounds: nat, visits: nat) {
    && round <= MAX_ROUNDS + (if final then 1 else 0)
    && (node == Select ==> round <= MAX_ROUNDS - (if final then 0 else 1))
    && rounds <= round && (node == Estimate ==> rounds < round)
    && (!final && !node.Merge? ==> visits == 3 * round - (match node case Estimate => 2 case Aggregate => 1 case _ => 0))
    && (!final && node.Merge? ==> visits <= 3 * round)
    && (final ==>
          && !node.Merge?
          && visits <= 3 * MAX_ROUNDS + (match node case Select => 1 case Estimate => 2 case Aggregate => 3 case _ => 4))
  }

  /** Placing photos never makes a new target. */
  lemma NoNewTargets(before: seq<Photo>, after: seq<Photo>)
    requires Extends(before, after) && AnyTarget(after)
    ensures AnyTarget(before)
  {
    var k :| 0 <= k < |after| && IsTarget(after[k]);
    assert before[k] == after[k];
  }

  lemma ExtendsSelf(photos: seq<Photo>)
    ensures Extends(photos, photos)
  {}

  lemma NothingYet(links: seq<Link>, photos: seq<Photo>, accepted: seq<Proposal>, news: seq<NewPlace>,
                   similarity: Similarity)
    requires AllIn(accepted, |photos|)
    ensures Extends(photos, photos) && CarriedOut(links, photos, news, accepted, 0, news, similarity, photos)
  {}

  lemma OpenedNext(start: seq<NewPlace>, accepted: seq<Proposal>, n: nat)
    requires n < |accepted|
    ensures var before := OpenedAfter(start, accepted, n);
            OpenedAfter(start, accepted, n + 1) == if IsFirst(accepted, n + 1, n) then Opened(before, accepted[n]) else before
  {}

  /** A photo placed by now was placed by an earlier proposal. */
  lemma CarriedOutSkips(links: seq<Link>, before: seq<Photo>, start: seq<NewPlace>, accepted: seq<Proposal>, n: nat,
                        news: seq<NewPlace>, similarity: Similarity, after: seq<Photo>)
    requires n < |accepted| && Extends(before, after)
    requires AllIn(accepted, |before|)
    requires CarriedOut(links, before, start, accepted, n, news, similarity, after)
    requires before[accepted[n].photo].place.None? && after[accepted[n].photo].place.Some?
    ensures CarriedOut(links, before, start, accepted, n + 1, news, similarity, after)
    ensures PhotosOf(accepted, n + 1) == PhotosOf(accepted, n)
  {
    hide PlacedWell, Honours, OpenedAfter;
    assert exists i :: 0 <= i < n && accepted[i].photo == accepted[n].photo;
    assert !IsFirst(accepted, n + 1, n);
    OpenedNext(start, accepted, n);
    forall j: nat | IsFirst(accepted, n + 1, j) && before[accepted[j].photo].place.None?
      ensures Honours(links, news, accepted[j], after[accepted[j].photo])
    {
      assert j < n && IsFirst(accepted, n, j);
    }
  }

  lemma HonoursStays(links: seq<Link>, news: seq<NewPlace>, more: seq<NewPlace>, p: Proposal, photo: Photo)
    requires Honours(links, news, p, photo) && news <= more
    ensures Honours(links, more, p, photo)
  {}

  lemma {:induction false} FirstOf(accepted: seq<Proposal>, n: nat, i: nat) returns (j: nat)
    requires i < n <= |accepted|
    ensures IsFirst(accepted, n, j) && accepted[j].photo == accepted[i].photo
  {
    if k: nat :| k < i && accepted[k].photo == accepted[i].photo { j := FirstOf(accepted, n, k); } else { j := i; }
  }

  /** A photo not placed by now has had no proposal yet. */
  lemma NotYetProposed(links: seq<Link>, before: seq<Photo>, start: seq<NewPlace>, accepted: seq<Proposal>, n: nat,
                       news: seq<NewPlace>, similarity: Similarity, after: seq<Photo>)
    requires n < |accepted| && Extends(before, after) && AllIn(accepted, |before|)
    requires CarriedOut(links, before, start, accepted, n, news, similarity, after)
    requires after[accepted[n].photo].place.None?
    ensures IsFirst(accepted, n + 1, n) && accepted[n].photo !in PhotosOf(accepted, n)
    ensures after[accepted[n].photo] == before[accepted[n].photo]
  {
    hide PlacedWell, OpenedAfter;
    assert before[accepted[n].photo] == after[accepted[n].photo];
    forall i: nat | i < n ensures accepted[i].photo != accepted[n].photo {
      var j := FirstOf(accepted, n, i);
      assert before[accepted[j].photo].place.None? ==> after[accepted[j].photo].place.Some?;
    }
  }

  lemma CarriedOutGrows(links: seq<Link>, before: seq<Photo>, start: seq<NewPlace>, accepted: seq<Proposal>, n: nat,
                        news: seq<NewPlace>, more: seq<NewPlace>, similarity: Similarity,
                        mid: seq<Photo>, after: seq<Photo>)
    requires n < |accepted| && Extends(before, mid) && Extends(mid, after) && more == Opened(news, accepted[n])
    requires AllIn(accepted, |before|)
    requires forall k | 0 <= k < |mid| :: PhotoOk(mid[k])
    requires CarriedOut(links, before, start, accepted, n, news, similarity, mid)
    requires var k := accepted[n].photo;
             && mid[k].place.None?
             && (forall m | 0 <= m < |mid| && m != k :: after[m] == mid[m])
             && Honours(links, more, accepted[n], after[k])
             && PlacedWell(links, mid[k], after[k], more, similarity, after)
    ensures CarriedOut(links, before, start, accepted, n + 1, more, similarity, after)
    ensures PhotosOf(accepted, n + 1) == PhotosOf(accepted, n) + {accepted[n].photo}
    ensures accepted[n].photo !in PhotosOf(accepted, n)
  {
    hide OpenedAfter;
    OpenedNext(start, accepted, n);
    var at := accepted[n].photo;
    NotYetProposed(links, before, start, accepted, n, news, similarity, mid);
    assert news <= more;
    forall j: nat | IsFirst(accepted, n + 1, j) && before[accepted[j].photo].place.None?
      ensures Honours(links, more, accepted[j], after[accepted[j].photo])
    {
      if j < n {
        assert IsFirst(accepted, n, j);
        HonoursStays(links, news, more, accepted[j], mid[accepted[j].photo]);
        assert mid[accepted[j].photo].place.Some?;
      }
    }
    forall k | 0 <= k < |before| && before[k] != after[k]
      ensures PlacedWell(links, before[k], after[k], more, similarity, after)
    {
      if k != at {
        assert after[k] == mid[k];
        SpotStays(links, mid, after, news, more, similarity, mid[k].place.value, mid[k].id, mid[k].spot);
      }
    }
  }
}
