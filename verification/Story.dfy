/** How many photos each place of a story gets, and which (app/story/selection.py). */
module Story {
  import opened Sets
  import opened Wrappers
  import opened Sorting

  function Sum(s: seq<int>): int {
    if s == [] then 0 else Sum(s[..|s| - 1]) + s[|s| - 1]
  }

  function Min(a: int, b: int): int {
    if a <= b then a else b
  }

  lemma SumAppend(s: seq<int>, x: int)
    ensures Sum(s + [x]) == Sum(s) + x
  {
    assert (s + [x])[..|s|] == s;
  }

  lemma {:induction false} SumUpdate(s: seq<int>, i: nat, x: int)
    requires i < |s|
    ensures Sum(s[i := x]) == Sum(s) - s[i] + x
    decreases |s|
  {
    var n := |s| - 1;
    if i < n {
      assert s[i := x][..n] == s[..n][i := x];
      SumUpdate(s[..n], i, x);
    } else {
      assert s[i := x][..n] == s[..n];
    }
  }

  // ---------- Largest remainders

  /** Photos beyond the first of each place. */
  function Capacities(counts: seq<int>): (r: seq<int>)
    ensures |r| == |counts| && forall i | 0 <= i < |r| :: r[i] == counts[i] - 1
  {
    seq(|counts|, i requires 0 <= i < |counts| => counts[i] - 1)
  }

  function Floors(capacity: seq<int>, remaining: int, total: int): (r: seq<int>)
    requires total > 0
    ensures |r| == |capacity| && forall i | 0 <= i < |r| :: r[i] == remaining * capacity[i] / total
  {
    seq(|capacity|, i requires 0 <= i < |capacity| => remaining * capacity[i] / total)
  }

  function Remainders(capacity: seq<int>, remaining: int, total: int): (r: seq<int>)
    requires total > 0
    ensures |r| == |capacity| && forall i | 0 <= i < |r| :: r[i] == remaining * capacity[i] % total
  {
    seq(|capacity|, i requires 0 <= i < |capacity| => remaining * capacity[i] % total)
  }

  lemma {:induction false} CapacitySum(counts: seq<int>)
    ensures Sum(Capacities(counts)) == Sum(counts) - |counts|
    decreases |counts|
  {
    if counts != [] {
      var n := |counts| - 1;
      CapacitySum(counts[..n]);
      assert Capacities(counts)[..n] == Capacities(counts[..n]);
    }
  }

  /** What the floors leave over is what the remainders add up to. */
  lemma {:induction false} FloorsAndRemainders(capacity: seq<int>, remaining: int, total: int)
    requires total > 0
    ensures remaining * Sum(capacity) == total * Sum(Floors(capacity, remaining, total)) + Sum(Remainders(capacity, remaining, total))
    decreases |capacity|
  {
    if capacity != [] {
      var n := |capacity| - 1;
      var c := capacity[n];
      FloorsAndRemainders(capacity[..n], remaining, total);
      assert Floors(capacity, remaining, total)[..n] == Floors(capacity[..n], remaining, total);
      assert Remainders(capacity, remaining, total)[..n] == Remainders(capacity[..n], remaining, total);
      assert remaining * c == total * (remaining * c / total) + remaining * c % total;
      var a, b := Sum(capacity[..n]), Sum(Floors(capacity[..n], remaining, total));
      assert remaining * (a + c) == remaining * a + remaining * c;
      assert total * (b + remaining * c / total) == total * b + total * (remaining * c / total);
    }
  }

  function Positives(s: seq<int>): set<nat> {
    set i: nat | i < |s| && s[i] > 0
  }

  /** Remainders are below the total, so more of them are positive than fit into their sum. */
  lemma {:induction false} SumBound(s: seq<int>, total: int)
    requires total > 0 && forall i | 0 <= i < |s| :: 0 <= s[i] < total
    ensures 0 <= Sum(s) <= |Positives(s)| * (total - 1)
    decreases |s|
  {
    if s == [] {
      assert Positives(s) == {};
    } else {
      var n := |s| - 1;
      SumBound(s[..n], total);
      if s[n] > 0 {
        assert Positives(s) == Positives(s[..n]) + {n};
        assert (|Positives(s[..n])| + 1) * (total - 1) == |Positives(s[..n])| * (total - 1) + (total - 1);
      } else {
        assert Positives(s) == Positives(s[..n]);
      }
    }
  }

  lemma Times(a: int, b: int, c: int)
    requires a <= b && c >= 0
    ensures a * c <= b * c
  {}

  lemma FewerThan(rest: int, k: int, total: int)
    requires total > 0 && k >= 0 && 0 <= rest * total <= k * (total - 1)
    ensures 0 <= rest <= k
  {
    assert (k + 1) * total == k * (total - 1) + k + total;
    if rest > k { Times(k + 1, rest, total); }
    if rest < 0 { Times(rest, -1, total); }
  }

  lemma EnoughPositives(s: seq<int>, total: int, rest: int)
    requires total > 0 && forall i | 0 <= i < |s| :: 0 <= s[i] < total
    requires Sum(s) == rest * total
    ensures 0 <= rest <= |Positives(s)|
  {
    SumBound(s, total);
    FewerThan(rest, |Positives(s)|, total);
  }

  /** Larger remainder first, ties by position. */
  predicate Ahead(remainders: seq<int>, i: nat, j: nat) {
    i < |remainders| && j < |remainders| &&
    (remainders[i] > remainders[j] || (remainders[i] == remainders[j] && i < j))
  }

  function AheadOf(remainders: seq<int>): (nat, nat) -> bool {
    (i: nat, j: nat) => Ahead(remainders, i, j)
  }

  lemma AheadIsOrder(remainders: seq<int>)
    ensures StrictOrder(AheadOf(remainders), |remainders|)
  {}

  /** Whoever gets one of the left-over photos has a positive remainder. */
  lemma LuckyArePositive(remainders: seq<int>, order: seq<nat>, rest: nat, p: nat)
    requires forall i | 0 <= i < |remainders| :: 0 <= remainders[i]
    requires Arranges(AheadOf(remainders), |remainders|, order)
    requires p < rest <= |Positives(remainders)|
    ensures p < |order| && order[p] < |remainders| && remainders[order[p]] > 0
  {
    var positives := Positives(remainders);
    DistinctElements(order);
    SubsetSize(positives, Elements(order));
    if remainders[order[p]] <= 0 {
      forall m | p <= m < |order| ensures remainders[order[m]] <= 0 {
        if m > p { assert AheadOf(remainders)(order[p], order[m]); }
      }
      assert positives <= Elements(order[..p]) by {
        forall i | i in positives ensures i in order[..p] {
          assert i in order;
          var q :| 0 <= q < |order| && order[q] == i;
          assert order[..p][q] == i;
        }
      }
      DistinctElements(order[..p]);
      SubsetSize(positives, Elements(order[..p]));
    }
  }

  // ---------- Allocation

  predicate Allocatable(counts: seq<int>, budget: int) {
    counts != [] && (forall i | 0 <= i < |counts| :: counts[i] >= 1) && budget >= |counts|
  }

  /** Within one of the place's proportional share of what is left after one photo each. */
  predicate NearShare(counts: seq<int>, budget: int, i: nat, share: int)
    requires i < |counts|
  {
    var remaining := Min(budget, Sum(counts)) - |counts|;
    var total := Sum(counts) - |counts|;
    && total * (share - 1) > remaining * (counts[i] - 1) - total - (if total == 0 then 1 else 0)
    && total * (share - 1) < remaining * (counts[i] - 1) + total + (if total == 0 then 1 else 0)
  }

  /** The place gets more than its proportional share of what is left after one photo each. */
  predicate RoundedUp(counts: seq<int>, remaining: int, total: int, shares: seq<int>, i: nat)
    requires |shares| == |counts| && total > 0
  {
    i < |counts| && shares[i] - 1 > remaining * (counts[i] - 1) / total
  }

  /** The place gets its proportional share, rounded down. */
  predicate RoundedDown(counts: seq<int>, remaining: int, total: int, shares: seq<int>, i: nat)
    requires |shares| == |counts| && total > 0
  {
    i < |counts| && shares[i] - 1 == remaining * (counts[i] - 1) / total
  }

  /** A place rounded up has at least the remainder of a place rounded down. */
  ghost predicate RoundedFairly(counts: seq<int>, budget: int, shares: seq<int>)
    requires |shares| == |counts|
  {
    var remaining := Min(budget, Sum(counts)) - |counts|;
    var total := Sum(counts) - |counts|;
    total > 0 ==>
      forall i: nat, j: nat |
        RoundedUp(counts, remaining, total, shares, i) && RoundedDown(counts, remaining, total, shares, j) ::
        Ahead(Remainders(Capacities(counts), remaining, total), i, j)
  }

  ghost predicate FairlyAllocated(counts: seq<int>, budget: int, shares: seq<int>) {
    && |shares| == |counts| && Sum(shares) == Min(budget, Sum(counts))
    && (forall i: nat | i < |counts| :: 1 <= shares[i] <= counts[i] && NearShare(counts, budget, i, shares[i]))
    && RoundedFairly(counts, budget, shares)
  }

  /** What is left over goes to the largest remainders, of equal ones to the first. */
  lemma LargestRemaindersWin(counts: seq<int>, budget: int, shares: seq<int>, i: nat, j: nat)
    requires FairlyAllocated(counts, budget, shares)
    requires var left, room := Min(budget, Sum(counts)) - |counts|, Sum(counts) - |counts|;
             room > 0 && RoundedUp(counts, left, room, shares, i) && RoundedDown(counts, left, room, shares, j)
    ensures var left, room := Min(budget, Sum(counts)) - |counts|, Sum(counts) - |counts|;
            var a, b := left * (counts[i] - 1) % room, left * (counts[j] - 1) % room;
            i < |counts| && j < |counts| && a >= b && (a == b ==> i < j)
  {
    assert i < |counts| && j < |counts|;
    hide FairlyAllocated, RoundedUp, RoundedDown;
    FairIsRounded(counts, budget, shares);
    var left, room := Min(budget, Sum(counts)) - |counts|, Sum(counts) - |counts|;
    var remainders := Remainders(Capacities(counts), left, room);
    assert Ahead(remainders, i, j);
    assert Capacities(counts)[i] == counts[i] - 1 && Capacities(counts)[j] == counts[j] - 1;
    assert remainders[i] == left * Capacities(counts)[i] % room && remainders[j] == left * Capacities(counts)[j] % room;
  }

  lemma FairIsRounded(counts: seq<int>, budget: int, shares: seq<int>)
    requires FairlyAllocated(counts, budget, shares)
    ensures |shares| == |counts| && RoundedFairly(counts, budget, shares)
  {
    hide NearShare, RoundedFairly;
  }

  /** The floors, with one more for the first n places of the order. */
  ghost predicate Topped(floors: seq<int>, order: seq<nat>, n: nat, shares: seq<int>)
    requires n <= |order|
  {
    && |shares| == |floors| && Sum(shares) == Sum(floors) + n
    && forall i: nat | i < |floors| :: shares[i] == floors[i] + (if i in order[..n] then 1 else 0)
  }

  lemma ToppedNext(floors: seq<int>, order: seq<nat>, n: nat, shares: seq<int>)
    requires n < |order| && Topped(floors, order, n, shares) && order[n] < |floors|
    requires forall p, q | 0 <= p < q < |order| :: order[p] != order[q]
    ensures Topped(floors, order, n + 1, shares[order[n] := shares[order[n]] + 1])
  {
    SumUpdate(shares, order[n], shares[order[n]] + 1);
    assert order[..n + 1] == order[..n] + [order[n]];
    assert order[n] !in order[..n];
  }

  /** A floor with a positive remainder leaves room for one more. */
  lemma RoomForOne(c: int, remaining: int, total: int)
    requires 0 <= remaining <= total && total > 0 && c >= 0
    ensures 0 <= remaining * c / total <= c
    ensures remaining * c % total > 0 ==> remaining * c / total < c
  {
    var f := remaining * c / total;
    assert remaining * c == total * f + remaining * c % total;
    Times(remaining, total, c);
    assert remaining * c <= total * c;
    Times(0, remaining, c);
    assert (c + 1) * total == c * total + total;
    if f > c { Times(c + 1, f, total); }
    if f < 0 { Times(f, -1, total); }
  }

  lemma ToppedPlace(capacity: seq<int>, remaining: int, total: int, order: seq<nat>, rest: nat, shares: seq<int>, i: nat)
    requires 0 <= remaining <= total && total > 0 && i < |capacity| && capacity[i] >= 0 && rest <= |order|
    requires Arranges(AheadOf(Remainders(capacity, remaining, total)), |capacity|, order)
    requires rest <= |Positives(Remainders(capacity, remaining, total))|
    requires Topped(Floors(capacity, remaining, total), order, rest, shares)
    ensures 0 <= shares[i] <= capacity[i]
    ensures remaining * capacity[i] - total < total * shares[i] < remaining * capacity[i] + total
  {
    hide Positives, Topped;
    ToppedAt(Floors(capacity, remaining, total), order, rest, shares, i);
    RoomForOne(capacity[i], remaining, total);
    if i in order[..rest] {
      var p :| 0 <= p < rest && order[..rest][p] == i;
      LuckyArePositive(Remainders(capacity, remaining, total), order, rest, p);
    }
    NearFloor(remaining, capacity[i], total, shares[i]);
  }

  lemma ToppedAt(floors: seq<int>, order: seq<nat>, n: nat, shares: seq<int>, i: nat)
    requires n <= |order| && Topped(floors, order, n, shares) && i < |floors|
    ensures |shares| == |floors| && shares[i] == floors[i] + (if i in order[..n] then 1 else 0)
  {}

  /** What the loop of `allocate` ends with is a fair allocation. */
  lemma ToppedIsFair(counts: seq<int>, budget: int, remaining: int, total: int, order: seq<nat>, rest: nat,
                     shares: seq<int>)
    requires Allocatable(counts, budget)
    requires remaining == Min(budget, Sum(counts)) - |counts| && total == Sum(counts) - |counts|
    requires 0 < remaining <= total && rest <= |order|
    requires Topped(Floors(Capacities(counts), remaining, total), order, rest, shares)
    requires Arranges(AheadOf(Remainders(Capacities(counts), remaining, total)), |counts|, order)
    requires rest <= |Positives(Remainders(Capacities(counts), remaining, total))|
    requires Sum(Floors(Capacities(counts), remaining, total)) + rest == remaining
    ensures FairlyAllocated(counts, budget, Raised(shares))
  {
    hide Arranges, Positives, AheadOf, Ahead, Sum, Topped, NearShare, RoundedFairly;
    var capacity := Capacities(counts);
    ToppedSum(Floors(capacity, remaining, total), order, rest, shares);
    RaisedSum(shares);
    forall i: nat | i < |counts|
      ensures 1 <= shares[i] + 1 <= counts[i] && NearShare(counts, budget, i, shares[i] + 1)
    {
      ToppedPlace(capacity, remaining, total, order, rest, shares, i);
      NearIsNear(counts, budget, i, remaining, total, shares[i]);
    }
    ToppedIsRounded(counts, budget, remaining, total, order, rest, shares);
  }

  lemma ToppedSum(floors: seq<int>, order: seq<nat>, n: nat, shares: seq<int>)
    requires n <= |order| && Topped(floors, order, n, shares)
    ensures |shares| == |floors| && Sum(shares) == Sum(floors) + n
  {}

  lemma NearIsNear(counts: seq<int>, budget: int, i: nat, remaining: int, total: int, share: int)
    requires remaining == Min(budget, Sum(counts)) - |counts| && total == Sum(counts) - |counts| && total > 0
    requires i < |counts|
    requires remaining * Capacities(counts)[i] - total < total * share < remaining * Capacities(counts)[i] + total
    ensures NearShare(counts, budget, i, share + 1)
  {}

  lemma ToppedIsRounded(counts: seq<int>, budget: int, remaining: int, total: int, order: seq<nat>, rest: nat,
                        shares: seq<int>)
    requires remaining == Min(budget, Sum(counts)) - |counts| && total == Sum(counts) - |counts| && total > 0
    requires rest <= |order| && Topped(Floors(Capacities(counts), remaining, total), order, rest, shares)
    requires Arranges(AheadOf(Remainders(Capacities(counts), remaining, total)), |counts|, order)
    ensures |shares| == |counts| && RoundedFairly(counts, budget, Raised(shares))
  {
    hide Arranges, AheadOf, Ahead, Sum;
    forall i: nat, j: nat |
      i < |counts| && j < |counts|
      && shares[i] > remaining * (counts[i] - 1) / total && shares[j] == remaining * (counts[j] - 1) / total
      ensures Ahead(Remainders(Capacities(counts), remaining, total), i, j)
    {
      EarlierIsAhead(Remainders(Capacities(counts), remaining, total), order, rest, i, j);
    }
  }

  lemma EarlierIsAhead(remainders: seq<int>, order: seq<nat>, rest: nat, i: nat, j: nat)
    requires Arranges(AheadOf(remainders), |remainders|, order) && rest <= |order|
    requires i in order[..rest] && j < |remainders| && j !in order[..rest]
    ensures Ahead(remainders, i, j)
  {
    var p :| 0 <= p < rest && order[..rest][p] == i;
    assert j in order;
    var q :| 0 <= q < |order| && order[q] == j;
    InPrefix(order, rest, q);
    assert AheadOf(remainders)(order[p], order[q]);
  }

  lemma InPrefix(order: seq<nat>, rest: nat, q: nat)
    requires q < |order| && rest <= |order|
    ensures q < rest ==> order[q] in order[..rest]
  {
    if q < rest { assert order[..rest][q] == order[q]; }
  }

  lemma NearFloor(remaining: int, c: int, total: int, share: int)
    requires total > 0
    requires share == remaining * c / total
             || (share == remaining * c / total + 1 && remaining * c % total > 0)
    ensures remaining * c - total < total * share < remaining * c + total
  {
    var f := remaining * c / total;
    assert remaining * c == total * f + remaining * c % total;
    assert total * (f + 1) == total * f + total;
  }

  /** One photo each, on top of the shares. */
  function Raised(shares: seq<int>): (r: seq<int>)
    ensures |r| == |shares| && forall i | 0 <= i < |r| :: r[i] == shares[i] + 1
  {
    seq(|shares|, i requires 0 <= i < |shares| => shares[i] + 1)
  }

  lemma {:induction false} RaisedSum(shares: seq<int>)
    ensures Sum(Raised(shares)) == Sum(shares) + |shares|
    decreases |shares|
  {
    if shares != [] {
      var n := |shares| - 1;
      RaisedSum(shares[..n]);
      assert Raised(shares)[..n] == Raised(shares[..n]);
    }
  }

  /** How many photos the floors leave over: no more than there are positive remainders. */
  lemma RestFits(capacity: seq<int>, remaining: int, total: int)
    requires total == Sum(capacity) > 0
    ensures var rest := remaining - Sum(Floors(capacity, remaining, total));
            0 <= rest <= |Positives(Remainders(capacity, remaining, total))| <= |capacity|
  {
    hide Positives, Sum;
    var remainders := Remainders(capacity, remaining, total);
    var rest := remaining - Sum(Floors(capacity, remaining, total));
    FloorsAndRemainders(capacity, remaining, total);
    assert Sum(remainders) == rest * total;
    EnoughPositives(remainders, total, rest);
    PositivesBound(remainders);
  }

  lemma {:induction false} PositivesBound(s: seq<int>)
    ensures |Positives(s)| <= |s|
    decreases |s|
  {
    if s == [] {
      assert Positives(s) == {};
    } else {
      var n := |s| - 1;
      PositivesBound(s[..n]);
      assert Positives(s) <= Positives(s[..n]) + {n};
      SubsetSize(Positives(s), Positives(s[..n]) + {n});
    }
  }

  /** The floors and one more for each place at the head of the order. */
  method TopUp(floors: seq<int>, order: seq<nat>, rest: nat) returns (shares: seq<int>)
    requires rest <= |order| && (forall p | 0 <= p < |order| :: order[p] < |floors|)
    requires forall p, q | 0 <= p < q < |order| :: order[p] != order[q]
    ensures Topped(floors, order, rest, shares)
  {
    shares := floors;
    for n := 0 to rest
      invariant Topped(floors, order, n, shares)
    {
      ToppedNext(floors, order, n, shares);
      shares := shares[order[n] := shares[order[n]] + 1];
    }
  }

  /** `allocate`; `Failure` stands for the ValueError. */
  method Allocate(counts: seq<int>, budget: int) returns (r: Outcome<seq<int>>)
    ensures r.Done? <==> Allocatable(counts, budget)
    ensures r.Failure? <==> counts == [] || budget < |counts| || exists i :: 0 <= i < |counts| && counts[i] < 1
    ensures r.Done? ==> FairlyAllocated(counts, budget, r.value)
  {
    hide FairlyAllocated, Positives, Topped, Ahead;
    if !Allocatable(counts, budget) { return Failure; }
    var remaining := Min(budget, Sum(counts)) - |counts|;
    var capacity := Capacities(counts);
    CapacitySum(counts);
    EnoughForOneEach(counts);
    if remaining == 0 {
      OneEach(counts, budget);
      return Done(Raised(Zeros(|counts|)));
    }
    var total := Sum(capacity);
    var floors := Floors(capacity, remaining, total);
    var rest := remaining - Sum(floors);
    RestFits(capacity, remaining, total);
    var remainders := Remainders(capacity, remaining, total);
    AheadIsOrder(remainders);
    var order := SortPositions(AheadOf(remainders), |counts|);
    var shares := TopUp(floors, order, rest);
    ToppedIsFair(counts, budget, remaining, total, order, rest, shares);
    r := Done(Raised(shares));
  }

  function Zeros(n: nat): (r: seq<int>)
    ensures |r| == n && forall i | 0 <= i < n :: r[i] == 0
  {
    seq(n, i => 0)
  }

  lemma {:induction false} EnoughForOneEach(counts: seq<int>)
    requires forall i | 0 <= i < |counts| :: counts[i] >= 1
    ensures Sum(counts) >= |counts|
    ensures Sum(counts) == |counts| ==> forall i | 0 <= i < |counts| :: counts[i] == 1
    decreases |counts|
  {
    if counts != [] { EnoughForOneEach(counts[..|counts| - 1]); }
  }

  lemma OneEach(counts: seq<int>, budget: int)
    requires Allocatable(counts, budget) && Min(budget, Sum(counts)) == |counts|
    ensures FairlyAllocated(counts, budget, Raised(Zeros(|counts|)))
  {
    EnoughForOneEach(counts);
    RaisedSum(Zeros(|counts|));
    ZeroSum(Zeros(|counts|));
    forall i: nat | i < |counts| ensures NearShare(counts, budget, i, 1) {
      NoneLeft(counts[i] - 1, Sum(counts) - |counts|);
    }
  }

  lemma NoneLeft(c: int, total: int)
    requires total >= 0
    ensures 0 * c == 0 && total * (1 - 1) == 0
  {}

  lemma {:induction false} ZeroSum(zeros: seq<int>)
    requires forall i | 0 <= i < |zeros| :: zeros[i] == 0
    ensures Sum(zeros) == 0
    decreases |zeros|
  {
    if zeros != [] { ZeroSum(zeros[..|zeros| - 1]); }
  }

  // ---------- Selection

  datatype Attachment = Attachment(id: int, takenAt: int)

  /** A place's usable photos, their closeness to the mean embedding, and their pairwise similarities. */
  datatype Group = Group(place: int, photos: seq<Attachment>, scores: seq<real>, similar: (nat, nat) -> real)

  predicate GroupOk(g: Group) {
    |g.scores| == |g.photos|
  }

  predicate Later(p: Attachment, q: Attachment) {
    p.takenAt > q.takenAt || (p.takenAt == q.takenAt && p.id > q.id)
  }

  /** Higher score first, then time, then ID; equal keys keep their position. */
  predicate Preferred(g: Group, i: nat, j: nat)
    requires GroupOk(g)
  {
    && i < |g.photos| && j < |g.photos|
    && (|| g.scores[i] > g.scores[j]
        || (g.scores[i] == g.scores[j] &&
            (Later(g.photos[j], g.photos[i]) || (!Later(g.photos[i], g.photos[j]) && i < j))))
  }

  function PreferredIn(g: Group): (nat, nat) -> bool
    requires GroupOk(g)
  {
    (i: nat, j: nat) => Preferred(g, i, j)
  }

  lemma PreferredIsOrder(g: Group)
    requires GroupOk(g)
    ensures StrictOrder(PreferredIn(g), |g.photos|)
  {}

  /** Photo i looks like photo j as far as the threshold is concerned. */
  predicate SameScene(g: Group, threshold: Option<real>, i: nat, j: nat) {
    threshold.Some? && g.similar(i, j) >= threshold.value
  }

  ghost predicate Blocked(g: Group, threshold: Option<real>, chosen: seq<nat>, i: nat)
    requires GroupOk(g)
  {
    exists j :: j in chosen && Preferred(g, j, i) && SameScene(g, threshold, i, j)
  }

  /**
   The choice for one place: at most `count` photos in order of preference, no later one like an
   earlier one, and no photo passed over unless it is like a better one or the places ran out.
   */
  ghost predicate WellChosen(g: Group, threshold: Option<real>, count: int, chosen: seq<nat>)
    requires GroupOk(g)
  {
    && |chosen| <= count && (forall i | i in chosen :: i < |g.photos|)
    && (forall p, q | 0 <= p < q < |chosen| ::
          Preferred(g, chosen[p], chosen[q]) && !SameScene(g, threshold, chosen[q], chosen[p]))
    && (forall i: nat | i < |g.photos| && i !in chosen ::
          Blocked(g, threshold, chosen, i)
          || (|chosen| == count && forall j | j in chosen :: Preferred(g, j, i)))
  }

  /** The same for the part of the order gone through so far. */
  ghost predicate ChosenUpTo(g: Group, threshold: Option<real>, order: seq<nat>, n: nat, chosen: seq<nat>)
    requires GroupOk(g) && n <= |order|
  {
    && (forall i | i in chosen :: i in order[..n])
    && (forall p, q | 0 <= p < q < |chosen| ::
          Preferred(g, chosen[p], chosen[q]) && !SameScene(g, threshold, chosen[q], chosen[p]))
    && (forall i | i in order[..n] && i !in chosen :: Blocked(g, threshold, chosen, i))
  }

  lemma ChosenNext(g: Group, threshold: Option<real>, order: seq<nat>, n: nat, chosen: seq<nat>, take: bool)
    requires GroupOk(g) && Arranges(PreferredIn(g), |g.photos|, order) && n < |order|
    requires ChosenUpTo(g, threshold, order, n, chosen)
    requires take <==> forall j | j in chosen :: !SameScene(g, threshold, order[n], j)
    ensures ChosenUpTo(g, threshold, order, n + 1, if take then chosen + [order[n]] else chosen)
  {
    assert order[..n + 1] == order[..n] + [order[n]];
    forall j | j in chosen ensures Preferred(g, j, order[n]) {
      var p :| 0 <= p < n && order[..n][p] == j;
      assert PreferredIn(g)(order[p], order[n]);
    }
    if take {
      var more := chosen + [order[n]];
      forall i | i in order[..n] && i !in more ensures Blocked(g, threshold, more, i) {
        var j :| j in chosen && Preferred(g, j, i) && SameScene(g, threshold, i, j);
        assert j in more;
      }
    }
  }

  lemma ChosenIsWell(g: Group, threshold: Option<real>, count: int, order: seq<nat>, n: nat, chosen: seq<nat>)
    requires GroupOk(g) && Arranges(PreferredIn(g), |g.photos|, order) && n <= |order|
    requires ChosenUpTo(g, threshold, order, n, chosen) && |chosen| <= count
    requires n == |order| || |chosen| == count
    ensures WellChosen(g, threshold, count, chosen)
  {
    forall i | i in chosen ensures i < |g.photos| {
      var p :| 0 <= p < n && order[..n][p] == i;
    }
    forall i: nat | i < |g.photos| && i !in chosen
      ensures Blocked(g, threshold, chosen, i) || (|chosen| == count && forall j | j in chosen :: Preferred(g, j, i))
    {
      assert i in order;
      var q :| 0 <= q < |order| && order[q] == i;
      InPrefix(order, n, q);
      if q >= n {
        forall j | j in chosen ensures Preferred(g, j, i) {
          var p :| 0 <= p < n && order[..n][p] == j;
          assert PreferredIn(g)(order[p], order[q]);
        }
      }
    }
  }

  method AnySameScene(g: Group, threshold: Option<real>, chosen: seq<nat>, i: nat) returns (b: bool)
    ensures b <==> exists j :: j in chosen && SameScene(g, threshold, i, j)
  {
    for p := 0 to |chosen|
      invariant forall q | 0 <= q < p :: !SameScene(g, threshold, i, chosen[q])
    {
      if SameScene(g, threshold, i, chosen[p]) { return true; }
    }
    return false;
  }

  /** The greedy loop for one place. */
  method Choose(g: Group, threshold: Option<real>, count: int) returns (chosen: seq<nat>)
    requires GroupOk(g) && count >= 0
    ensures WellChosen(g, threshold, count, chosen)
    ensures BestChosen(g, threshold, count, chosen)
    ensures count >= 1 && g.photos != [] ==> chosen != []
  {
    hide Preferred, WellChosen, StrictOrder, BestChosen;
    PreferredIsOrder(g);
    var order := SortPositions(PreferredIn(g), |g.photos|);
    chosen := [];
    var n := 0;
    while n < |order| && |chosen| < count
      invariant n <= |order| && |chosen| <= count && ChosenUpTo(g, threshold, order, n, chosen)
      invariant n > 0 ==> chosen != []
    {
      var same := AnySameScene(g, threshold, chosen, order[n]);
      ChosenNext(g, threshold, order, n, chosen, !same);
      if !same { chosen := chosen + [order[n]]; }
      n := n + 1;
    }
    ChosenIsWell(g, threshold, count, order, n, chosen);
    ChosenAreBest(g, threshold, count, chosen);
  }

  datatype Pick = Pick(place: int, photo: Attachment)

  function PicksOf(g: Group, chosen: seq<nat>): (r: seq<Pick>)
    requires forall i | i in chosen :: i < |g.photos|
    ensures |r| == |chosen|
    ensures forall p | 0 <= p < |r| :: chosen[p] in chosen && r[p] == Pick(g.place, g.photos[chosen[p]])
  {
    seq(|chosen|, p requires 0 <= p < |chosen| => assert chosen[p] in chosen; Pick(g.place, g.photos[chosen[p]]))
  }

  function Counts(groups: seq<Group>): (r: seq<int>)
    ensures |r| == |groups| && forall i | 0 <= i < |r| :: r[i] == |groups[i].photos|
  {
    seq(|groups|, i requires 0 <= i < |groups| => |groups[i].photos|)
  }

  /** Every place has a good choice within its allocation, and all of them together are the selection. */
  ghost predicate Selection(groups: seq<Group>, threshold: Option<real>, shares: seq<int>, n: nat,
                            choices: seq<seq<nat>>, picks: seq<Pick>)
    requires |shares| == |groups| && n <= |groups| && forall i | 0 <= i < |groups| :: GroupOk(groups[i])
  {
    && |choices| == n
    && (forall i | 0 <= i < n :: WellChosen(groups[i], threshold, shares[i], choices[i]) && choices[i] != [])
    && picks == Joined(groups, choices)
  }

  ghost function Joined(groups: seq<Group>, choices: seq<seq<nat>>): seq<Pick>
    requires |choices| <= |groups|
    requires forall i, j | 0 <= i < |choices| && j in choices[i] :: j < |groups[i].photos|
  {
    if choices == [] then []
    else
      var n := |choices| - 1;
      Joined(groups, choices[..n]) + PicksOf(groups[n], choices[n])
  }

  lemma {:induction false} JoinedSize(groups: seq<Group>, choices: seq<seq<nat>>, shares: seq<int>)
    requires |choices| <= |groups| && |shares| == |choices|
    requires forall i, j | 0 <= i < |choices| && j in choices[i] :: j < |groups[i].photos|
    requires forall i | 0 <= i < |choices| :: 1 <= |choices[i]| <= shares[i]
    ensures |choices| <= |Joined(groups, choices)| <= Sum(shares)
    decreases |choices|
  {
    if choices != [] {
      var n := |choices| - 1;
      JoinedSize(groups, choices[..n], shares[..n]);
    }
  }

  /** At least one photo for every place, and never more than the budget. */
  lemma SelectionFitsBudget(groups: seq<Group>, threshold: Option<real>, budget: int, shares: seq<int>,
                            choices: seq<seq<nat>>, picks: seq<Pick>)
    requires forall i | 0 <= i < |groups| :: GroupOk(groups[i])
    requires FairlyAllocated(Counts(groups), budget, shares)
    requires Selection(groups, threshold, shares, |groups|, choices, picks)
    ensures |groups| <= |picks| <= budget
    ensures forall i | 0 <= i < |groups| :: exists p :: p in picks && p.place == groups[i].place
  {
    hide FairlyAllocated, Preferred;
    AllocatedSum(groups, budget, shares);
    JoinedSize(groups, choices, shares);
    forall i | 0 <= i < |groups| ensures exists p :: p in picks && p.place == groups[i].place {
      JoinedHas(groups, choices, i);
    }
  }

  lemma AllocatedSum(groups: seq<Group>, budget: int, shares: seq<int>)
    requires FairlyAllocated(Counts(groups), budget, shares)
    ensures |shares| == |groups| && Sum(shares) <= budget
  {}

  lemma {:induction false} JoinedHas(groups: seq<Group>, choices: seq<seq<nat>>, i: nat)
    requires |choices| <= |groups| && i < |choices| && choices[i] != []
    requires forall i, j | 0 <= i < |choices| && j in choices[i] :: j < |groups[i].photos|
    ensures exists p :: p in Joined(groups, choices) && p.place == groups[i].place
    decreases |choices|
  {
    var n := |choices| - 1;
    if i < n {
      JoinedHas(groups, choices[..n], i);
      var p :| p in Joined(groups, choices[..n]) && p.place == groups[i].place;
      assert p in Joined(groups, choices);
    } else {
      var p := PicksOf(groups[n], choices[n])[0];
      assert p in Joined(groups, choices);
    }
  }

  // ---------- The choice in plain terms

  /** Closer to the mean of the place's photos; of equals the earlier, then the smaller ID, then the first. */
  ghost predicate Better(g: Group, i: nat, j: nat)
    requires GroupOk(g)
  {
    && i < |g.photos| && j < |g.photos| && i != j
    && g.scores[i] >= g.scores[j]
    && (g.scores[i] == g.scores[j] ==>
          && g.photos[i].takenAt <= g.photos[j].takenAt
          && (g.photos[i].takenAt == g.photos[j].takenAt ==>
                && g.photos[i].id <= g.photos[j].id && (g.photos[i].id == g.photos[j].id ==> i < j)))
  }

  /** Similar enough for the threshold, if there is one. */
  predicate TooSimilar(g: Group, threshold: Option<real>, i: nat, j: nat) {
    match threshold
    case None => false
    case Some(t) => t <= g.similar(i, j)
  }

  /** Best first, none too similar to a better one, and none left out without such a reason or a full allocation. */
  ghost predicate BestChosen(g: Group, threshold: Option<real>, count: int, chosen: seq<nat>)
    requires GroupOk(g)
  {
    && |chosen| <= count && (forall i | i in chosen :: i < |g.photos|)
    && (forall p, q | 0 <= p < q < |chosen| ::
          Better(g, chosen[p], chosen[q]) && !TooSimilar(g, threshold, chosen[q], chosen[p]))
    && (forall i: nat | i < |g.photos| && i !in chosen ::
          || (exists j :: j in chosen && Better(g, j, i) && TooSimilar(g, threshold, i, j))
          || (|chosen| == count && forall j | j in chosen :: Better(g, j, i)))
  }

  lemma ChosenAreBest(g: Group, threshold: Option<real>, count: int, chosen: seq<nat>)
    requires GroupOk(g) && WellChosen(g, threshold, count, chosen)
    ensures BestChosen(g, threshold, count, chosen)
  {
    forall i: nat, j: nat ensures Preferred(g, i, j) <==> Better(g, i, j) {}
    hide Preferred, Better;
  }

  /** Whatever else is chosen, the best photo of the place is. */
  lemma BestComesFirst(g: Group, threshold: Option<real>, count: int, chosen: seq<nat>, i: nat)
    requires GroupOk(g) && BestChosen(g, threshold, count, chosen) && count >= 1 && i < |g.photos|
    ensures chosen != [] && (i == chosen[0] || Better(g, chosen[0], i))
  {
    if i in chosen {
      var p :| 0 <= p < |chosen| && chosen[p] == i;
      assert p > 0 ==> Better(g, chosen[0], chosen[p]);
    } else if j :| j in chosen && Better(g, j, i) && TooSimilar(g, threshold, i, j) {
      var p :| 0 <= p < |chosen| && chosen[p] == j;
      assert p > 0 ==> Better(g, chosen[0], chosen[p]);
    }
  }

  // ---------- The answer, by time

  predicate After(picks: seq<Pick>, i: nat, j: nat) {
    i < |picks| && j < |picks| && Later(picks[i].photo, picks[j].photo)
  }

  /** A stable sort by time and ID. */
  function SoonerIn(picks: seq<Pick>): (nat, nat) -> bool {
    (i: nat, j: nat) => i < |picks| && j < |picks| && (After(picks, j, i) || (!After(picks, i, j) && i < j))
  }

  lemma SoonerIsOrder(picks: seq<Pick>)
    ensures StrictOrder(SoonerIn(picks), |picks|)
  {}

  ghost predicate InTimeOrder(picks: seq<Pick>) {
    forall p, q | 0 <= p < q < |picks| :: !Later(picks[p].photo, picks[q].photo)
  }

  /** Taken no later, and at the same time with no greater ID. */
  ghost predicate Sooner(p: Attachment, q: Attachment) {
    p.takenAt <= q.takenAt && (p.takenAt == q.takenAt ==> p.id <= q.id)
  }

  /** The same picks, by position, in time order. */
  ghost predicate Rearranged(picks: seq<Pick>, sorted: seq<Pick>) {
    && InTimeOrder(sorted)
    && exists order: seq<nat> ::
         && |order| == |picks| == |sorted| && (forall p, q | 0 <= p < q < |order| :: order[p] != order[q])
         && forall p | 0 <= p < |order| :: order[p] < |picks| && sorted[p] == picks[order[p]]
  }

  method SortByTime(picks: seq<Pick>) returns (sorted: seq<Pick>)
    ensures Rearranged(picks, sorted)
  {
    SoonerIsOrder(picks);
    var order := SortPositions(SoonerIn(picks), |picks|);
    sorted := seq(|picks|, p requires 0 <= p < |picks| => picks[order[p]]);
    forall p, q | 0 <= p < q < |sorted| ensures !Later(sorted[p].photo, sorted[q].photo) {
      assert SoonerIn(picks)(order[p], order[q]);
    }
  }

  /** What `select` answers, with the allocation and choices behind it. */
  ghost predicate Selected(groups: seq<Group>, budget: int, threshold: Option<real>, shares: seq<int>,
                           choices: seq<seq<nat>>, picks: seq<Pick>, answer: seq<Pick>)
    requires forall i | 0 <= i < |groups| :: GroupOk(groups[i])
  {
    && FairlyAllocated(Counts(groups), budget, shares) && Selection(groups, threshold, shares, |groups|, choices, picks)
    && Rearranged(picks, answer)
  }

  /** `select`: fails only where `allocate` does. */
  method Select(groups: seq<Group>, budget: int, threshold: Option<real>)
    returns (r: Outcome<seq<Pick>>, shares: seq<int>, choices: seq<seq<nat>>, picks: seq<Pick>)
    requires forall i | 0 <= i < |groups| :: GroupOk(groups[i])
    ensures r.Done? <==> Allocatable(Counts(groups), budget)
    ensures r.Done? ==>
              && Selected(groups, budget, threshold, shares, choices, picks, r.value)
              && |groups| <= |r.value| <= budget
              && (forall p, q | 0 <= p < q < |r.value| :: Sooner(r.value[p].photo, r.value[q].photo))
              && (forall i | 0 <= i < |groups| :: BestChosen(groups[i], threshold, shares[i], choices[i]))
  {
    hide FairlyAllocated, WellChosen, Rearranged, BestChosen;
    shares, choices, picks := [], [], [];
    var allocation := Allocate(Counts(groups), budget);
    if allocation.Failure? { return Failure, shares, choices, picks; }
    shares := allocation.value;
    SharesPositive(groups, budget, shares);
    for i := 0 to |groups|
      invariant Selection(groups, threshold, shares, i, choices, picks)
    {
      var chosen := Choose(groups[i], threshold, shares[i]);
      ghost var was := choices;
      choices := choices + [chosen];
      assert choices[..i] == was;
      ChosenInRange(groups[i], threshold, shares[i], chosen);
      picks := picks + PicksOf(groups[i], chosen);
    }
    SelectionFitsBudget(groups, threshold, budget, shares, choices, picks);
    var answer := SortByTime(picks);
    RearrangedSize(picks, answer);
    forall i | 0 <= i < |groups| ensures BestChosen(groups[i], threshold, shares[i], choices[i]) {
      ChosenAreBest(groups[i], threshold, shares[i], choices[i]);
    }
    r := Done(answer);
  }

  lemma RearrangedSize(picks: seq<Pick>, sorted: seq<Pick>)
    requires Rearranged(picks, sorted)
    ensures |sorted| == |picks| && forall p, q | 0 <= p < q < |sorted| :: Sooner(sorted[p].photo, sorted[q].photo)
  {}

  lemma ChosenInRange(g: Group, threshold: Option<real>, count: int, chosen: seq<nat>)
    requires GroupOk(g) && WellChosen(g, threshold, count, chosen)
    ensures |chosen| <= count && forall i | i in chosen :: i < |g.photos|
  {}

  lemma SharesPositive(groups: seq<Group>, budget: int, shares: seq<int>)
    requires FairlyAllocated(Counts(groups), budget, shares)
    ensures |shares| == |groups| && forall i | 0 <= i < |groups| :: 1 <= shares[i] <= |groups[i].photos|
  {
    hide NearShare;
  }
}
