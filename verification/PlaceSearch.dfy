/**
 The public place index: how scripts/build_place_index.py builds it and how `PlaceIndex.search`
 (app/infra/place_index.py) answers from it.
 */
module PlaceSearch {
  import opened Wrappers
  import opened Sorting
  import opened Texts

  // ---------- Text

  predicate At(text: string, q: string, i: int) {
    0 <= i && i + |q| <= |text| && text[i..i + |q|] == q
  }

  /** SQLite's `instr(text, q) > 0`, and what a trigram MATCH of three characters or more decides. */
  ghost predicate Contains(text: string, q: string) {
    exists i :: At(text, q, i)
  }

  /** `"|".join(norms)`. */
  function Join(norms: seq<string>): string {
    if norms == [] then "" else if |norms| == 1 then norms[0] else norms[0] + "|" + Join(norms[1..])
  }

  predicate Plain(text: string) {
    '|' !in text
  }

  lemma InFirst(a: string, b: string, q: string, i: int)
    requires i + |q| <= |a|
    ensures At(a + b, q, i) <==> At(a, q, i)
  {
    if 0 <= i { assert (a + b)[i..i + |q|] == a[i..i + |q|]; }
  }

  lemma InSecond(a: string, b: string, q: string, i: int)
    requires i >= |a|
    ensures At(a + b, q, i) <==> At(b, q, i - |a|)
  {
    if i + |q| <= |a + b| { assert (a + b)[i..i + |q|] == b[i - |a|..i - |a| + |q|]; }
  }

  lemma CharAt(text: string, q: string, i: int, k: int)
    requires At(text, q, i) && i <= k < i + |q|
    ensures text[k] in q
  {
    assert text[i..i + |q|][k - i] == text[k];
  }

  /** A text without the separator is found in one part or the other, never across it. */
  lemma ContainsAcross(a: string, b: string, q: string)
    requires Plain(q) && q != ""
    ensures Contains(a + "|" + b, q) <==> Contains(a, q) || Contains(b, q)
  {
    var whole := a + "|" + b;
    assert whole == a + ("|" + b) == (a + "|") + b;
    if i :| At(whole, q, i) {
      if i + |q| <= |a| {
        InFirst(a, "|" + b, q, i);
      } else if i > |a| {
        InSecond(a + "|", b, q, i);
      } else {
        CharAt(whole, q, i, |a|);
      }
    }
    if i :| At(a, q, i) { InFirst(a, "|" + b, q, i); }
    if i :| At(b, q, i) { InSecond(a + "|", b, q, i + |a| + 1); }
  }

  /** Searching the joined names finds a match exactly when a single name contains the query. */
  lemma {:induction false} JoinedContains(norms: seq<string>, q: string)
    requires Plain(q) && q != ""
    ensures Contains(Join(norms), q) <==> exists n :: n in norms && Contains(n, q)
    decreases |norms|
  {
    if norms == [] {
      assert forall i :: !At("", q, i);
    } else if |norms| == 1 {
      assert norms == [norms[0]];
    } else {
      ContainsAcross(norms[0], Join(norms[1..]), q);
      JoinedContains(norms[1..], q);
      assert norms == [norms[0]] + norms[1..];
    }
  }

  // ---------- The tables

  datatype Row = Row(source: string, sourceId: string, name: string, category: string,
                     latitude: real, longitude: real, norms: seq<string>)

  /** A place's number is its position; the name tables pair a normalised name with a place. */
  datatype Tables = Tables(rows: seq<Row>, names: set<(string, nat)>, grams: set<(string, nat)>)

  /** Normalised names: not empty, letters and digits only. */
  ghost predicate PlainNames(row: Row) {
    forall n | n in row.norms :: n != "" && Plain(n)
  }

  ghost predicate TablesOk(t: Tables) {
    && (forall n: string, p: nat :: (n, p) in t.names <==> p < |t.rows| && n in t.rows[p].norms)
    && (forall n: string, p: nat :: (n, p) in t.grams <==> (n, p) in t.names && |n| >= 3)
    && (forall row | row in t.rows :: PlainNames(row))
    && (forall p, r | 0 <= p < r < |t.rows| ::
          t.rows[p].source != t.rows[r].source || t.rows[p].sourceId != t.rows[r].sourceId)
  }

  // ---------- The three tiers

  ghost predicate Equal(t: Tables, q: string, p: nat)
    requires p < |t.rows|
  {
    q in t.rows[p].norms
  }

  ghost predicate Within(t: Tables, q: string, p: nat)
    requires p < |t.rows|
  {
    |q| >= 2 && exists n :: n in t.rows[p].norms && Contains(n, q)
  }

  ghost predicate Around(t: Tables, q: string, p: nat)
    requires p < |t.rows|
  {
    exists n :: n in t.rows[p].norms && |n| >= 3 && Contains(q, n)
  }

  /** 3: a name equals the query; 2: a name contains it; 1: it contains a name; 0: no match. */
  ghost function Tier(t: Tables, q: string, p: nat): nat
    requires p < |t.rows|
  {
    if Equal(t, q, p) then 3 else if Within(t, q, p) then 2 else if Around(t, q, p) then 1 else 0
  }

  // ---------- Queries

  /** Distances from the search centre, and the bounding box of a radius. */
  datatype Centre = Centre(distance: nat -> real, inBox: (int, nat) -> bool)

  /** The box contains the disc. */
  ghost predicate BoxCovers(c: Centre) {
    forall radius, p | c.distance(p) <= radius as real :: c.inBox(radius, p)
  }

  const MAX_RADIUS_M := 30000
  const MAX_TWO_CHAR_RADIUS_M := 5000
  const MAX_QUERY_CHARS := 64

  function Max(a: int, b: int): int { if a >= b then a else b }
  function Min(a: int, b: int): int { if a <= b then a else b }

  function Capped(q: string, radius: int): int {
    Max(1, Min(radius, if |q| == 2 then MAX_TWO_CHAR_RADIUS_M else MAX_RADIUS_M))
  }

  function Cut(q: string): string {
    if |q| > MAX_QUERY_CHARS then q[..MAX_QUERY_CHARS] else q
  }

  predicate Contained(text: string, q: string) {
    exists i | 0 <= i <= |text| :: At(text, q, i)
  }

  lemma ContainedIs(text: string, q: string)
    ensures Contained(text, q) <==> Contains(text, q)
  {
    if i :| At(text, q, i) { assert 0 <= i <= |text|; }
  }

  datatype Hit = Hit(place: nat, score: nat, distance: real)

  // ---------- The passes

  /** Places found once the queries so far have run: the equal names, then the containing ones, then some parts. */
  ghost predicate Found(t: Tables, q: string, second: bool, parts: set<string>, p: nat)
    requires p < |t.rows|
  {
    Equal(t, q, p) || (second && Within(t, q, p)) || exists n :: n in parts && n in t.rows[p].norms
  }

  /** `best` holds exactly the places found within the radius, each with its tier. */
  ghost predicate BestOk(best: map<nat, Hit>, c: Centre, radius: int, t: Tables, q: string, second: bool,
                         parts: set<string>)
  {
    && (forall p | p in best :: p < |t.rows| && best[p] == Hit(p, Tier(t, q, p), c.distance(p)))
    && (forall p: nat | p < |t.rows| ::
          p in best <==> Found(t, q, second, parts, p) && c.distance(p) <= radius as real)
  }

  /** Substrings of the query of three characters or more, other than the query itself. */
  function Parts(q: string): set<string> {
    (set i, j | 0 <= i < |q| && i + 3 <= j <= |q| :: q[i..j]) - {q}
  }

  lemma PartsAre(q: string, n: string)
    ensures n in Parts(q) <==> |n| >= 3 && n != q && Contains(q, n)
  {
    if i :| At(q, n, i) && |n| >= 3 { assert q[i..i + |n|] == n; }
    if n in Parts(q) {
      var i, j :| 0 <= i < |q| && i + 3 <= j <= |q| && q[i..j] == n;
      assert At(q, n, i);
    }
  }

  /** With all parts searched, a place is found exactly when it has a tier. */
  lemma AllFound(t: Tables, q: string, p: nat)
    requires p < |t.rows|
    ensures Found(t, q, true, Parts(q), p) <==> Tier(t, q, p) > 0
  {
    if n :| n in Parts(q) && n in t.rows[p].norms { PartsAre(q, n); }
    if n :| n in t.rows[p].norms && |n| >= 3 && Contains(q, n) { PartsAre(q, n); }
  }

  /** What `collect` does with a list of places. */
  ghost predicate Collected(before: map<nat, Hit>, after: map<nat, Hit>, c: Centre, radius: int, score: nat,
                            places: seq<nat>)
  {
    && (forall p | p in before :: p in after && after[p] == before[p])
    && (forall p :: p in after <==> p in before || (p in places && c.distance(p) <= radius as real))
    && (forall p | p in after && p !in before :: after[p] == Hit(p, score, c.distance(p)))
  }

  lemma SecondPass(before: map<nat, Hit>, after: map<nat, Hit>, c: Centre, radius: int, t: Tables, q: string,
                   places: seq<nat>)
    requires BoxCovers(c) && BestOk(before, c, radius, t, q, false, {})
    requires forall p: nat :: p in places <==> p < |t.rows| && Within(t, q, p) && c.inBox(radius, p)
    requires Collected(before, after, c, radius, 2, places)
    ensures BestOk(after, c, radius, t, q, true, {})
  {
    hide Within, Equal;
  }

  lemma PartPass(before: map<nat, Hit>, after: map<nat, Hit>, c: Centre, radius: int, t: Tables, q: string,
                 done: set<string>, part: string, places: seq<nat>)
    requires BoxCovers(c) && BestOk(before, c, radius, t, q, true, done) && part in Parts(q)
    requires forall p: nat :: p in places <==> p < |t.rows| && part in t.rows[p].norms && c.inBox(radius, p)
    requires Collected(before, after, c, radius, 1, places)
    ensures BestOk(after, c, radius, t, q, true, done + {part})
  {
    hide Within, Contains, Parts;
    PartsAre(q, part);
    forall p: nat | p < |t.rows|
      ensures Found(t, q, true, done + {part}, p) <==> Found(t, q, true, done, p) || part in t.rows[p].norms
    {}
  }

  // ---------- The ranking

  predicate RowBefore(a: Row, b: Row) {
    TextBefore(a.source, b.source) || (a.source == b.source && TextBefore(a.sourceId, b.sourceId))
  }

  /** Higher tier first, then nearer, then by source and number there. */
  predicate HitBefore(t: Tables, a: Hit, b: Hit)
    requires a.place < |t.rows| && b.place < |t.rows|
  {
    || a.score > b.score
    || (a.score == b.score &&
        (a.distance < b.distance || (a.distance == b.distance && RowBefore(t.rows[a.place], t.rows[b.place]))))
  }

  lemma RowsAreOrdered(a: Row, b: Row, c: Row)
    ensures !(RowBefore(a, b) && RowBefore(b, a))
    ensures (a.source == b.source && a.sourceId == b.sourceId) || RowBefore(a, b) || RowBefore(b, a)
    ensures RowBefore(a, b) && RowBefore(b, c) ==> RowBefore(a, c)
  {
    TextIsOrdered(a.source, b.source);
    TextIsOrdered(a.sourceId, b.sourceId);
    TextIsOrdered(b.source, c.source);
    if RowBefore(a, b) && RowBefore(b, c) {
      if TextBefore(a.source, b.source) && TextBefore(b.source, c.source) { TextChain(a.source, b.source, c.source); }
      if TextBefore(a.sourceId, b.sourceId) && TextBefore(b.sourceId, c.sourceId) {
        TextChain(a.sourceId, b.sourceId, c.sourceId);
      }
    }
  }

  /** The reference: every place with a tier within the radius, ranked. */
  ghost predicate Ranked(t: Tables, c: Centre, radius: int, q: string, hits: seq<Hit>) {
    && (forall h | h in hits :: h.place < |t.rows|)
    && (forall i, j | 0 <= i < j < |hits| :: HitBefore(t, hits[i], hits[j]))
    && (forall p: nat | p < |t.rows| ::
          (exists h :: h in hits && h.place == p) <==> Tier(t, q, p) > 0 && c.distance(p) <= radius as real)
    && (forall h | h in hits :: h == Hit(h.place, Tier(t, q, h.place), c.distance(h.place)))
  }

  /** A better tier first, then nearer, then by the text of source and number there. */
  ghost predicate RanksAbove(t: Tables, a: Hit, b: Hit)
    requires a.place < |t.rows| && b.place < |t.rows|
  {
    var r, s := t.rows[a.place], t.rows[b.place];
    && a.score >= b.score
    && (a.score == b.score ==>
          && a.distance <= b.distance
          && (a.distance == b.distance ==>
                ComesBefore(r.source, s.source) || (r.source == s.source && ComesBefore(r.sourceId, s.sourceId))))
  }

  lemma BeforeRanksAbove(t: Tables, a: Hit, b: Hit)
    requires a.place < |t.rows| && b.place < |t.rows| && HitBefore(t, a, b)
    ensures RanksAbove(t, a, b)
  {
    hide ComesBefore, TextBefore;
    TextBeforeIs(t.rows[a.place].source, t.rows[b.place].source);
    TextBeforeIs(t.rows[a.place].sourceId, t.rows[b.place].sourceId);
  }

  lemma RankedInOrder(t: Tables, c: Centre, radius: int, q: string, hits: seq<Hit>)
    requires Ranked(t, c, radius, q, hits)
    ensures forall h | h in hits :: h.place < |t.rows|
    ensures forall i, j | 0 <= i < j < |hits| :: RanksAbove(t, hits[i], hits[j])
  {
    forall i, j | 0 <= i < j < |hits| ensures RanksAbove(t, hits[i], hits[j]) {
      assert hits[i] in hits && hits[j] in hits;
      BeforeRanksAbove(t, hits[i], hits[j]);
    }
  }

  /** The radius is kept between 1 and 30 km, or 5 km for two characters. */
  lemma CappedIs(q: string, radius: int)
    ensures Capped(q, radius)
            == if radius < 1 then 1 else if |q| == 2 && radius > 5000 then 5000 else if radius > 30000 then 30000 else radius
  {}

  /** Of a long query the first 64 characters count. */
  lemma CutIs(q: string)
    ensures Cut(q) <= q && |Cut(q)| == if |q| < 64 then |q| else 64
  {}

  lemma HitBeforeOnce(t: Tables, a: Hit, b: Hit)
    requires a.place < |t.rows| && b.place < |t.rows| && HitBefore(t, a, b)
    ensures !HitBefore(t, b, a)
  {
    RowsAreOrdered(t.rows[a.place], t.rows[b.place], t.rows[a.place]);
  }

  ghost predicate Descending(t: Tables, hits: seq<Hit>) {
    && (forall h | h in hits :: h.place < |t.rows|)
    && (forall i, j | 0 <= i < j < |hits| :: HitBefore(t, hits[i], hits[j]))
  }

  lemma FirstOnce(t: Tables, a: seq<Hit>, h: Hit)
    requires Descending(t, a) && a != []
    ensures h in a[1..] <==> h in a && h != a[0]
  {
    assert a == [a[0]] + a[1..];
    forall i | 1 <= i < |a| ensures a[i] != a[0] {
      assert a[i] in a && a[0] in a;
      HitBeforeOnce(t, a[0], a[i]);
    }
  }

  lemma SomeHit(a: seq<Hit>)
    ensures a == [] || exists h :: h in a
  {
    if a != [] { assert a[0] in a; }
  }

  lemma {:induction false} OneDescending(t: Tables, a: seq<Hit>, b: seq<Hit>)
    requires Descending(t, a) && Descending(t, b) && forall h :: h in a <==> h in b
    ensures a == b
    decreases |a|
  {
    SomeHit(b);
    if a != [] {
      assert a[0] in b && b[0] in a;
      assert a[0] == b[0] by {
        var i :| 0 <= i < |b| && b[i] == a[0];
        var j :| 0 <= j < |a| && a[j] == b[0];
        if a[0] != b[0] { HitBeforeOnce(t, a[0], b[0]); }
      }
      forall h ensures h in a[1..] <==> h in b[1..] {
        FirstOnce(t, a, h);
        FirstOnce(t, b, h);
      }
      forall h | h in a[1..] ensures h.place < |t.rows| { FirstOnce(t, a, h); }
      forall h | h in b[1..] ensures h.place < |t.rows| { FirstOnce(t, b, h); }
      OneDescending(t, a[1..], b[1..]);
      assert a == [a[0]] + a[1..] && b == [b[0]] + b[1..];
    }
  }

  /** There is one ranking: what the search answers is determined. */
  lemma OneRanking(t: Tables, c: Centre, radius: int, q: string, a: seq<Hit>, b: seq<Hit>)
    requires Ranked(t, c, radius, q, a) && Ranked(t, c, radius, q, b)
    ensures a == b
  {
    hide HitBefore, Tier;
    forall h | h in a ensures h in b { RankedHas(t, c, radius, q, a, b, h); }
    forall h | h in b ensures h in a { RankedHas(t, c, radius, q, b, a, h); }
    OneDescending(t, a, b);
  }

  lemma RankedHas(t: Tables, c: Centre, radius: int, q: string, a: seq<Hit>, b: seq<Hit>, h: Hit)
    requires Ranked(t, c, radius, q, a) && Ranked(t, c, radius, q, b) && h in a
    ensures h in b
  {
    hide HitBefore, Tier;
    assert exists g :: g in b && g.place == h.place;
  }

  // ---------- The object

  class PlaceIndex {
    const tables: Tables

    ghost predicate Valid() {
      TablesOk(tables)
    }

    constructor (tables: Tables)
      requires TablesOk(tables)
      ensures Valid() && this.tables == tables
    {
      this.tables := tables;
    }

    /** `JOIN place_name n ... n.norm = ?` */
    method ByName(norm: string, c: Centre, radius: int) returns (places: seq<nat>)
      requires Valid()
      ensures forall p: nat :: p in places <==> p < |tables.rows| && norm in tables.rows[p].norms && c.inBox(radius, p)
    {
      places := [];
      for p := 0 to |tables.rows|
        invariant forall r: nat :: r in places <==> r < p && norm in tables.rows[r].norms && c.inBox(radius, r)
      {
        if (norm, p) in tables.names && c.inBox(radius, p) { places := places + [p]; }
      }
    }

    /** `place_name_fts MATCH ?`, for three characters or more. */
    method ByGrams(q: string, c: Centre, radius: int) returns (places: seq<nat>)
      requires Valid() && |q| >= 3
      ensures forall p: nat :: p in places <==> p < |tables.rows| && Within(tables, q, p) && c.inBox(radius, p)
    {
      places := [];
      for p := 0 to |tables.rows|
        invariant forall r: nat :: r in places <==> r < p && Within(tables, q, r) && c.inBox(radius, r)
      {
        var some := exists g | g in tables.grams :: g.1 == p && Contained(g.0, q);
        GramsDecide(tables, q, p);
        if some && c.inBox(radius, p) { places := places + [p]; }
      }
    }

    /** `instr(p.norms, ?) > 0`, for two characters. */
    method ByText(q: string, c: Centre, radius: int) returns (places: seq<nat>)
      requires Valid() && |q| == 2 && Plain(q)
      ensures forall p: nat :: p in places <==> p < |tables.rows| && Within(tables, q, p) && c.inBox(radius, p)
    {
      places := [];
      for p := 0 to |tables.rows|
        invariant forall r: nat :: r in places <==> r < p && Within(tables, q, r) && c.inBox(radius, r)
      {
        var joined := Join(tables.rows[p].norms);
        JoinedContains(tables.rows[p].norms, q);
        ContainedIs(joined, q);
        if Contained(joined, q) && c.inBox(radius, p) { places := places + [p]; }
      }
    }

    /** `collect`: a place keeps the score it got first, which is its best. */
    method Collect(best: map<nat, Hit>, score: nat, places: seq<nat>, c: Centre, radius: int) returns (more: map<nat, Hit>)
      requires forall p | p in best :: best[p].score >= score
      ensures Collected(best, more, c, radius, score, places)
    {
      more := best;
      for i := 0 to |places|
        invariant Collected(best, more, c, radius, score, places[..i])
        invariant forall p | p in more :: more[p].score >= score
      {
        assert places[..i + 1] == places[..i] + [places[i]];
        var p := places[i];
        if p in more && more[p].score >= score { continue; }
        if c.distance(p) <= radius as real { more := more[p := Hit(p, score, c.distance(p))]; }
      }
      assert places[..|places|] == places;
    }

    /** The three passes. */
    method Match(q: string, c: Centre, radius: int) returns (best: map<nat, Hit>)
      requires Valid() && BoxCovers(c) && q != "" && Plain(q)
      ensures BestOk(best, c, radius, tables, q, true, Parts(q))
    {
      hide Within, Tier, Collected, BestOk, Parts;
      var equal := ByName(q, c, radius);
      best := Collect(map[], 3, equal, c, radius);
      FirstPass(best, c, radius, tables, q, equal);
      ScoresAtLeast(best, c, radius, tables, q, false, {}, 2);
      var containing: seq<nat>;
      if |q| >= 3 {
        containing := ByGrams(q, c, radius);
      } else if |q| == 2 {
        containing := ByText(q, c, radius);
      } else {
        containing := [];
        OneCharacter(tables, q);
      }
      ghost var before := best;
      best := Collect(best, 2, containing, c, radius);
      SecondPass(before, best, c, radius, tables, q, containing);
      var left := Parts(q);
      ghost var done: set<string> := {};
      while left != {}
        invariant done + left == Parts(q) && BestOk(best, c, radius, tables, q, true, done)
        decreases |left|
      {
        var part :| part in left;
        left := left - {part};
        var places := ByName(part, c, radius);
        before := best;
        ScoresAtLeast(best, c, radius, tables, q, true, done, 1);
        best := Collect(best, 1, places, c, radius);
        PartPass(before, best, c, radius, tables, q, done, part, places);
        done := done + {part};
      }
      assert done == Parts(q);
    }

    /** `search`: the first `limit` of the ranking, or nothing for an empty query or no room. */
    method Search(query: string, c: Centre, radius: int, limit: int) returns (hits: seq<Hit>)
      requires Valid() && BoxCovers(c) && Plain(query)
      ensures query == "" || limit < 1 ==> hits == []
      ensures query != "" && limit >= 1 ==>
                exists all :: Ranked(tables, c, Capped(Cut(query), radius), Cut(query), all)
                              && hits == all[..Min(limit, |all|)]
      ensures |hits| <= Max(0, limit) && forall h | h in hits :: h.place < |tables.rows|
      ensures forall i, j | 0 <= i < j < |hits| :: RanksAbove(tables, hits[i], hits[j])
    {
      hide TablesOk, BestOk, Ranked, RanksAbove;
      var q := Cut(query);
      if q == "" || limit < 1 { return []; }
      var best := Match(q, c, Capped(q, radius));
      var all := SortHits(tables, best, c, Capped(q, radius), q);
      RankedInOrder(tables, c, Capped(q, radius), q, all);
      hits := all[..Min(limit, |all|)];
      assert forall h | h in hits :: h in all;
    }
  }

  lemma GramsDecide(t: Tables, q: string, p: nat)
    requires TablesOk(t) && |q| >= 3 && p < |t.rows|
    ensures (exists g | g in t.grams :: g.1 == p && Contained(g.0, q)) <==> Within(t, q, p)
  {
    if g :| g in t.grams && g.1 == p && Contained(g.0, q) {
      ContainedIs(g.0, q);
      assert (g.0, p) in t.grams;
    }
    if n :| n in t.rows[p].norms && Contains(n, q) {
      ContainedIs(n, q);
      assert (n, p) in t.names && (n, p) in t.grams;
    }
  }

  lemma FirstPass(best: map<nat, Hit>, c: Centre, radius: int, t: Tables, q: string, equal: seq<nat>)
    requires BoxCovers(c) && Collected(map[], best, c, radius, 3, equal)
    requires forall p: nat :: p in equal <==> p < |t.rows| && q in t.rows[p].norms && c.inBox(radius, p)
    ensures BestOk(best, c, radius, t, q, false, {})
  {
    hide Within;
  }

  /** After the equal names every score is 3; after the containing ones it is at least 2, and so on. */
  lemma ScoresAtLeast(best: map<nat, Hit>, c: Centre, radius: int, t: Tables, q: string, second: bool,
                      parts: set<string>, score: nat)
    requires BestOk(best, c, radius, t, q, second, parts) && parts <= Parts(q)
    requires score <= (if second then 1 else 2) && (!second ==> parts == {})
    ensures forall p | p in best :: best[p].score >= score
  {
    hide Within, Contains;
    forall p | p in best ensures best[p].score >= score {
      assert Found(t, q, second, parts, p);
      if second { AllFound(t, q, p); }
    }
  }

  lemma OneCharacter(t: Tables, q: string)
    requires |q| < 2
    ensures forall p: nat | p < |t.rows| :: !Within(t, q, p)
  {}

  method SortHits(t: Tables, best: map<nat, Hit>, c: Centre, radius: int, q: string) returns (hits: seq<Hit>)
    requires TablesOk(t) && BestOk(best, c, radius, t, q, true, Parts(q))
    ensures Ranked(t, c, radius, q, hits)
  {
    hide TablesOk, Tier, HitBefore, Parts;
    hits := [];
    var left := best.Keys;
    while left != {}
      invariant left <= best.Keys && Descending(t, hits)
      invariant forall h :: h in hits <==> h.place in best && h.place !in left && h == best[h.place]
      decreases |left|
    {
      var p :| p in left;
      left := left - {p};
      hits := InsertHit(t, hits, best[p]);
    }
    RankedFromBest(t, best, c, radius, q, hits);
  }

  lemma RankedFromBest(t: Tables, best: map<nat, Hit>, c: Centre, radius: int, q: string, hits: seq<Hit>)
    requires BestOk(best, c, radius, t, q, true, Parts(q)) && Descending(t, hits)
    requires forall h :: h in hits <==> h.place in best && h == best[h.place]
    ensures Ranked(t, c, radius, q, hits)
  {
    hide HitBefore, Found, Parts, Tier;
    forall p: nat | p < |t.rows|
      ensures (exists h :: h in hits && h.place == p) <==> Tier(t, q, p) > 0 && c.distance(p) <= radius as real
    {
      AllFound(t, q, p);
      if p in best { assert best[p] in hits; }
    }
  }

  method InsertHit(t: Tables, hits: seq<Hit>, h: Hit) returns (longer: seq<Hit>)
    requires TablesOk(t) && Descending(t, hits) && h.place < |t.rows| && forall g | g in hits :: g.place != h.place
    ensures Descending(t, longer) && forall g :: g in longer <==> g in hits || g == h
  {
    hide TablesOk, HitBefore;
    var i := 0;
    while i < |hits| && HitBefore(t, hits[i], h)
      invariant i <= |hits| && forall m | 0 <= m < i :: HitBefore(t, hits[m], h)
    {
      i := i + 1;
    }
    if i < |hits| {
      assert hits[i] in hits;
      HitsAreOrdered(t, hits[i], h);
      forall m | i <= m < |hits| ensures HitBefore(t, h, hits[m]) {
        assert hits[m] in hits;
        if m > i { HitChain(t, h, hits[i], hits[m]); }
      }
    }
    SplicedHits(t, hits, i, h);
    longer := hits[..i] + [h] + hits[i..];
  }

  lemma SplicedHits(t: Tables, hits: seq<Hit>, i: nat, h: Hit)
    requires Descending(t, hits) && i <= |hits| && h.place < |t.rows|
    requires forall m | 0 <= m < i :: hits[m].place < |t.rows| && HitBefore(t, hits[m], h)
    requires forall m | i <= m < |hits| :: hits[m].place < |t.rows| && HitBefore(t, h, hits[m])
    ensures Descending(t, hits[..i] + [h] + hits[i..])
    ensures forall g :: g in hits[..i] + [h] + hits[i..] <==> g in hits || g == h
  {
    hide HitBefore;
    assert hits == hits[..i] + hits[i..];
    var longer := hits[..i] + [h] + hits[i..];
    forall g | g in longer ensures g.place < |t.rows| {}
  }

  lemma HitsAreOrdered(t: Tables, a: Hit, b: Hit)
    requires TablesOk(t) && a.place < |t.rows| && b.place < |t.rows| && a.place != b.place
    ensures HitBefore(t, a, b) || HitBefore(t, b, a)
  {
    RowsAreOrdered(t.rows[a.place], t.rows[b.place], t.rows[a.place]);
    assert t.rows[a.place].source != t.rows[b.place].source || t.rows[a.place].sourceId != t.rows[b.place].sourceId;
  }

  lemma HitChain(t: Tables, a: Hit, b: Hit, c: Hit)
    requires a.place < |t.rows| && b.place < |t.rows| && c.place < |t.rows|
    requires HitBefore(t, a, b) && HitBefore(t, b, c)
    ensures HitBefore(t, a, c)
  {
    RowsAreOrdered(t.rows[a.place], t.rows[b.place], t.rows[c.place]);
  }
}
