/** How scripts/build_place_index.py fills the tables that `PlaceSearch` answers from. */
module PlaceBuild {
  import opened Wrappers
  import opened PlaceSearch

  /** One row of a source: coordinates where they parse, names stripped and not blank. */
  datatype Record = Record(sourceId: string, latitude: Option<real>, longitude: Option<real>,
                           names: seq<string>, category: string)

  datatype Source = Source(name: string, records: seq<Record>)

  /** NFKC and lower case, and which characters are letters or digits. */
  datatype Script = Script(fold: string -> string, isWord: char -> bool)

  const LAT_MIN := 33.0
  const LAT_MAX := 38.7
  const LON_MIN := 124.5
  const LON_MAX := 131.9

  function Words(text: string, isWord: char -> bool): string {
    if text == "" then ""
    else (if isWord(text[0]) then [text[0]] else "") + Words(text[1..], isWord)
  }

  /** `kept` are the positions, in order, of exactly the letters and digits. */
  ghost predicate Picked(text: string, isWord: char -> bool, words: string, kept: seq<nat>) {
    && |words| == |kept|
    && (forall i, j | 0 <= i < j < |kept| :: kept[i] < kept[j])
    && (forall k: nat | k < |text| :: k in kept <==> isWord(text[k]))
    && (forall i | 0 <= i < |kept| :: kept[i] < |text| && words[i] == text[kept[i]])
  }

  lemma {:induction false} WordsAppend(text: string, ch: char, isWord: char -> bool)
    ensures Words(text + [ch], isWord) == Words(text, isWord) + (if isWord(ch) then [ch] else "")
    decreases |text|
  {
    if text == "" {
      assert text + [ch] == [ch] && [ch][1..] == "";
    } else {
      WordsAppend(text[1..], ch, isWord);
      var longer := text + [ch];
      assert longer[1..] == text[1..] + [ch] && longer[0] == text[0];
      var head := if isWord(text[0]) then [text[0]] else "";
      assert Words(longer, isWord) == head + Words(longer[1..], isWord);
      assert Words(text, isWord) == head + Words(text[1..], isWord);
      hide Words;
    }
  }

  /** Every letter and digit stays, in order, and nothing else does. */
  lemma {:induction false} WordsAre(text: string, isWord: char -> bool) returns (kept: seq<nat>)
    ensures Picked(text, isWord, Words(text, isWord), kept)
    decreases |text|
  {
    if text == "" {
      kept := [];
    } else {
      var n := |text| - 1;
      kept := WordsAre(text[..n], isWord);
      WordsAppend(text[..n], text[n], isWord);
      assert text[..n] + [text[n]] == text;
      hide Words;
      if isWord(text[n]) { kept := kept + [n]; }
    }
  }

  /** `normalize`. */
  function Normalize(script: Script, name: string): string {
    Words(script.fold(name), script.isWord)
  }

  /** Normalised text holds letters and digits only, so never the separator of the joined names. */
  lemma {:induction false} WordsOnly(text: string, isWord: char -> bool)
    ensures forall ch | ch in Words(text, isWord) :: isWord(ch)
    ensures !isWord('|') ==> Plain(Words(text, isWord))
    decreases |text|
  {
    if text != "" { WordsOnly(text[1..], isWord); }
  }

  /** `dict.fromkeys` over the normalised names, without the empty one. */
  function Norms(script: Script, names: seq<string>): seq<string> {
    if names == [] then []
    else
      var before := Norms(script, names[..|names| - 1]);
      var n := Normalize(script, names[|names| - 1]);
      if n == "" || n in before then before else before + [n]
  }

  lemma {:induction false} NormsAre(script: Script, names: seq<string>, n: string)
    ensures n in Norms(script, names) <==> n != "" && exists i :: 0 <= i < |names| && Normalize(script, names[i]) == n
    decreases |names|
  {
    if names != [] {
      var rest := names[..|names| - 1];
      NormsAre(script, rest, n);
      if i :| 0 <= i < |names| && Normalize(script, names[i]) == n {
        if i < |rest| { assert rest[i] == names[i]; }
      }
      if i :| 0 <= i < |rest| && Normalize(script, rest[i]) == n { assert names[i] == rest[i]; }
    }
  }

  predicate InKorea(r: Record) {
    && r.latitude.Some? && r.longitude.Some?
    && LAT_MIN <= r.latitude.value <= LAT_MAX && LON_MIN <= r.longitude.value <= LON_MAX
  }

  predicate Usable(script: Script, r: Record) {
    InKorea(r) && Norms(script, r.names) != []
  }

  function RowOf(script: Script, source: string, r: Record): Row
    requires Usable(script, r)
  {
    Row(source, r.sourceId, r.names[0], r.category, r.latitude.value, r.longitude.value, Norms(script, r.names))
  }

  // ---------- One row

  /** The rows inserted for one place: itself, its names, and those long enough for the trigram table. */
  function WithRow(t: Tables, row: Row): Tables {
    var p := |t.rows|;
    Tables(t.rows + [row],
           t.names + (set n | n in row.norms :: (n, p)),
           t.grams + (set n | n in row.norms && |n| >= 3 :: (n, p)))
  }

  ghost predicate NewKey(t: Tables, row: Row) {
    forall p | 0 <= p < |t.rows| :: t.rows[p].source != row.source || t.rows[p].sourceId != row.sourceId
  }

  lemma WithRowOk(t: Tables, row: Row)
    requires TablesOk(t) && NewKey(t, row) && PlainNames(row)
    ensures TablesOk(WithRow(t, row))
  {
    var u := WithRow(t, row);
    var last := |t.rows|;
    forall n: string, p: nat ensures (n, p) in u.names <==> p < |u.rows| && n in u.rows[p].norms {
      if p < last { assert u.rows[p] == t.rows[p]; }
    }
    forall n: string, p: nat ensures (n, p) in u.grams <==> (n, p) in u.names && |n| >= 3 {
      if p < last { assert (n, p) in u.names <==> (n, p) in t.names; }
    }
  }

  // ---------- One source

  /** The first usable record with its number among the first k. */
  ghost predicate IsFirst(script: Script, records: seq<Record>, k: nat, i: nat)
    requires k <= |records|
  {
    && i < k && Usable(script, records[i])
    && forall j | 0 <= j < i && Usable(script, records[j]) :: records[j].sourceId != records[i].sourceId
  }

  /** Rows of the source so far: exactly one for the first usable record of each number. */
  ghost predicate SourceRows(t: Tables, script: Script, source: Source, k: nat)
    requires k <= |source.records|
  {
    && (forall i: nat | IsFirst(script, source.records, k, i) :: RowOf(script, source.name, source.records[i]) in t.rows)
    && (forall row | row in t.rows && row.source == source.name ::
          exists i: nat :: IsFirst(script, source.records, k, i) && row == RowOf(script, source.name, source.records[i]))
  }

  ghost predicate OthersKept(before: Tables, after: Tables, name: string) {
    && before.rows <= after.rows
    && forall row | row in after.rows && row.source != name :: row in before.rows
  }

  lemma RecordAdded(before: Tables, t: Tables, script: Script, source: Source, k: nat)
    requires k < |source.records| && SourceRows(t, script, source, k) && OthersKept(before, t, source.name)
    requires IsFirst(script, source.records, k + 1, k)
    ensures SourceRows(WithRow(t, RowOf(script, source.name, source.records[k])), script, source, k + 1)
    ensures OthersKept(before, WithRow(t, RowOf(script, source.name, source.records[k])), source.name)
  {
    var records := source.records;
    var row := RowOf(script, source.name, records[k]);
    var u := WithRow(t, row);
    forall i: nat | IsFirst(script, records, k + 1, i) ensures RowOf(script, source.name, records[i]) in u.rows {
      if i < k { assert IsFirst(script, records, k, i); } else { assert u.rows[|t.rows|] == row; }
    }
    forall r | r in u.rows && r.source == source.name
      ensures exists i: nat :: IsFirst(script, records, k + 1, i) && r == RowOf(script, source.name, records[i])
    {
      if r in t.rows {
        var i: nat :| IsFirst(script, records, k, i) && r == RowOf(script, source.name, records[i]);
        assert IsFirst(script, records, k + 1, i);
      }
    }
  }

  lemma RecordSkipped(t: Tables, script: Script, source: Source, k: nat)
    requires k < |source.records| && SourceRows(t, script, source, k)
    requires !IsFirst(script, source.records, k + 1, k)
    ensures SourceRows(t, script, source, k + 1)
  {
    var records := source.records;
    forall i: nat ensures IsFirst(script, records, k + 1, i) <==> IsFirst(script, records, k, i) {}
  }

  lemma NewFirst(t: Tables, script: Script, source: Source, k: nat, seen: set<string>)
    requires k < |source.records| && Usable(script, source.records[k]) && source.records[k].sourceId !in seen
    requires SourceRows(t, script, source, k)
    requires forall j | 0 <= j < k && Usable(script, source.records[j]) :: source.records[j].sourceId in seen
    requires forall i: nat | IsFirst(script, source.records, k, i) :: source.records[i].sourceId in seen
    ensures IsFirst(script, source.records, k + 1, k)
    ensures NewKey(t, RowOf(script, source.name, source.records[k]))
  {
    forall p | 0 <= p < |t.rows| && t.rows[p].source == source.name
      ensures t.rows[p].sourceId != source.records[k].sourceId
    {
      assert t.rows[p] in t.rows;
      var i: nat :| IsFirst(script, source.records, k, i) && t.rows[p] == RowOf(script, source.name, source.records[i]);
    }
  }

  /** The inner loop of `build`: drop, or insert, each record of a source; none is lost count of. */
  method BuildSource(t0: Tables, script: Script, source: Source) returns (t: Tables, kept: nat, dropped: nat)
    requires TablesOk(t0) && !script.isWord('|') && forall row | row in t0.rows :: row.source != source.name
    ensures TablesOk(t) && OthersKept(t0, t, source.name) && SourceRows(t, script, source, |source.records|)
    ensures kept + dropped == |source.records| && |t.rows| == |t0.rows| + kept
  {
    hide TablesOk, SourceRows, Usable, NewKey;
    t, kept, dropped := t0, 0, 0;
    var seen: set<string> := {};
    NoRecords(t0, script, source);
    for k := 0 to |source.records|
      invariant TablesOk(t) && OthersKept(t0, t, source.name) && SourceRows(t, script, source, k)
      invariant kept + dropped == k && |t.rows| == |t0.rows| + kept
      invariant forall j | 0 <= j < k && Usable(script, source.records[j]) :: source.records[j].sourceId in seen
      invariant forall id | id in seen ::
                  exists j :: 0 <= j < k && Usable(script, source.records[j]) && source.records[j].sourceId == id
    {
      var r := source.records[k];
      if !Usable(script, r) {
        dropped := dropped + 1;
        RecordSkipped(t, script, source, k);
        continue;
      }
      if r.sourceId in seen {
        dropped := dropped + 1;
        RecordSkipped(t, script, source, k);
        continue;
      }
      seen := seen + {r.sourceId};
      NewFirst(t, script, source, k, seen - {r.sourceId});
      RowIsPlain(script, source.name, r);
      WithRowOk(t, RowOf(script, source.name, r));
      RecordAdded(t0, t, script, source, k);
      t := WithRow(t, RowOf(script, source.name, r));
      kept := kept + 1;
    }
  }

  lemma NoRecords(t: Tables, script: Script, source: Source)
    requires forall row | row in t.rows :: row.source != source.name
    ensures SourceRows(t, script, source, 0)
  {}

  lemma RowIsPlain(script: Script, name: string, r: Record)
    requires Usable(script, r) && !script.isWord('|')
    ensures PlainNames(RowOf(script, name, r))
  {
    forall n | n in Norms(script, r.names) ensures n != "" && Plain(n) {
      NormsAre(script, r.names, n);
      var i :| 0 <= i < |r.names| && Normalize(script, r.names[i]) == n;
      WordsOnly(script.fold(r.names[i]), script.isWord);
    }
  }

  // ---------- All sources

  ghost predicate DistinctNames(sources: seq<Source>) {
    forall i, j | 0 <= i < j < |sources| :: sources[i].name != sources[j].name
  }

  ghost predicate Built(t: Tables, script: Script, sources: seq<Source>, n: nat)
    requires n <= |sources|
  {
    && (forall i | 0 <= i < n :: SourceRows(t, script, sources[i], |sources[i].records|))
    && (forall row | row in t.rows :: exists i :: 0 <= i < n && sources[i].name == row.source)
  }

  lemma SourceBuilt(before: Tables, after: Tables, script: Script, sources: seq<Source>, n: nat)
    requires n < |sources| && DistinctNames(sources) && Built(before, script, sources, n)
    requires OthersKept(before, after, sources[n].name)
    requires SourceRows(after, script, sources[n], |sources[n].records|)
    ensures Built(after, script, sources, n + 1)
  {
    forall i | 0 <= i < n ensures SourceRows(after, script, sources[i], |sources[i].records|) {
      assert SourceRows(before, script, sources[i], |sources[i].records|);
    }
    forall row | row in after.rows ensures exists i :: 0 <= i < n + 1 && sources[i].name == row.source {
      if row.source != sources[n].name { assert row in before.rows; }
    }
  }

  // ---------- The tables in plain terms

  /** In Korea, with at least one name that is more than punctuation. */
  ghost predicate WorthARow(script: Script, r: Record) {
    && r.latitude.Some? && 33.0 <= r.latitude.value <= 38.7
    && r.longitude.Some? && 124.5 <= r.longitude.value <= 131.9
    && exists i :: 0 <= i < |r.names| && Normalize(script, r.names[i]) != ""
  }

  /** The row made of a record: its first name, its own coordinates, and its normalised names, each once. */
  ghost predicate DescribedBy(script: Script, source: string, r: Record, row: Row) {
    && row.source == source && row.sourceId == r.sourceId && row.category == r.category
    && r.names != [] && row.name == r.names[0]
    && r.latitude == Some(row.latitude) && r.longitude == Some(row.longitude)
    && (forall n :: n in row.norms <==> n != "" && exists i :: 0 <= i < |r.names| && Normalize(script, r.names[i]) == n)
    && (forall i, j | 0 <= i < j < |row.norms| :: row.norms[i] != row.norms[j])
  }

  lemma {:induction false} NormsOnce(script: Script, names: seq<string>)
    ensures forall i, j | 0 <= i < j < |Norms(script, names)| :: Norms(script, names)[i] != Norms(script, names)[j]
    decreases |names|
  {
    if names != [] { NormsOnce(script, names[..|names| - 1]); }
  }

  lemma UsableIsWorth(script: Script, r: Record)
    ensures Usable(script, r) <==> WorthARow(script, r)
  {
    hide Norms, Normalize;
    if n :| n in Norms(script, r.names) { NormsAre(script, r.names, n); }
    if i :| 0 <= i < |r.names| && Normalize(script, r.names[i]) != "" {
      NormsAre(script, r.names, Normalize(script, r.names[i]));
    }
    assert Norms(script, r.names) == [] || Norms(script, r.names)[0] in Norms(script, r.names);
  }

  lemma RowDescribes(script: Script, source: string, r: Record)
    requires Usable(script, r)
    ensures DescribedBy(script, source, r, RowOf(script, source, r))
  {
    hide Norms, Normalize;
    NormsOnce(script, r.names);
    UsableIsWorth(script, r);
    forall n ensures n in Norms(script, r.names) <==>
                     n != "" && exists i :: 0 <= i < |r.names| && Normalize(script, r.names[i]) == n
    {
      NormsAre(script, r.names, n);
    }
  }

  /** Record i of the source is worth a row, and none before it with the same number is. */
  ghost predicate FirstWorth(script: Script, source: Source, i: nat) {
    && i < |source.records| && WorthARow(script, source.records[i])
    && forall j | 0 <= j < i && source.records[j].sourceId == source.records[i].sourceId ::
         !WorthARow(script, source.records[j])
  }

  /** Every first record of a number that is worth a row has one, and no row says anything else. */
  lemma TablesDescribe(t: Tables, script: Script, sources: seq<Source>, s: nat)
    requires Built(t, script, sources, |sources|) && s < |sources|
    ensures forall i: nat | FirstWorth(script, sources[s], i) ::
              exists row :: row in t.rows && DescribedBy(script, sources[s].name, sources[s].records[i], row)
    ensures forall row | row in t.rows && row.source == sources[s].name ::
              exists i: nat :: FirstWorth(script, sources[s], i)
                               && DescribedBy(script, sources[s].name, sources[s].records[i], row)
  {
    hide Usable, WorthARow, DescribedBy, RowOf;
    var source := sources[s];
    assert SourceRows(t, script, source, |source.records|);
    forall i: nat ensures FirstWorth(script, source, i) <==> IsFirst(script, source.records, |source.records|, i) {
      forall j | 0 <= j < |source.records| ensures Usable(script, source.records[j]) <==> WorthARow(script, source.records[j]) {
        UsableIsWorth(script, source.records[j]);
      }
    }
    forall i: nat | FirstWorth(script, source, i)
      ensures exists row :: row in t.rows && DescribedBy(script, source.name, source.records[i], row)
    {
      assert IsFirst(script, source.records, |source.records|, i);
      RowDescribes(script, source.name, source.records[i]);
    }
    forall row | row in t.rows && row.source == source.name
      ensures exists i: nat :: FirstWorth(script, source, i) && DescribedBy(script, source.name, source.records[i], row)
    {
      var i: nat :| IsFirst(script, source.records, |source.records|, i) && row == RowOf(script, source.name, source.records[i]);
      RowDescribes(script, source.name, source.records[i]);
    }
  }

  /** `build`: the tables hold the first usable record of every number of every source, and nothing else. */
  method Build(script: Script, sources: seq<Source>) returns (t: Tables)
    requires !script.isWord('|') && DistinctNames(sources)
    ensures TablesOk(t) && Built(t, script, sources, |sources|)
  {
    hide SourceRows;
    t := Tables([], {}, {});
    for n := 0 to |sources|
      invariant TablesOk(t) && Built(t, script, sources, n)
    {
      ghost var before := t;
      var kept, dropped;
      t, kept, dropped := BuildSource(t, script, sources[n]);
      SourceBuilt(before, t, script, sources, n);
    }
  }
}
