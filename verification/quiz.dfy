/**
 * server/utils/quiz.ts: 21 quiz answers become a seven-axis score vector whose
 * comma-joined text is looked up in a table read from match.tsv. The file
 * contents are parameters; the cluster list is the already parsed cluster.json.
 */
module Quiz {
  import opened Wrappers
  import opened Text

  /** An entry of cluster.json. */
  datatype Cluster = Cluster(clusterId: string, medoidValue: string, name: string, tagline: string)

  /** What cluster.json turned out to be when loadData read it. */
  datatype ClusterFile = Missing | Malformed | Parsed(clusters: seq<Cluster>)

  /**
   * clusterId is None where the source's value is NaN (a match row whose id
   * does not parse). scores lists the seven axes in AXIS_ORDER.
   */
  datatype QuizResult = QuizResult(clusterId: Option<int>, clusterData: Option<Cluster>, scores: seq<int>)

  const AxisCount := 7
  const QuestionCount := 21

  // ---------------------------------------------------------------- match.tsv rows

  /** A parsed match row: the vector text and parseInt of the cluster id. */
  type Row = (string, Option<int>)

  /** One line of match.tsv: skipped when blank or a header, else "vector<TAB>id...". */
  function ParseMatchLine(line: string): (r: Option<Row>)
    ensures r.Some? <==> !IsBlank(line) && !StartsWith(line, "value") && CountChar(line, '\t') >= 1
    ensures r.Some? ==> '\t' !in r.value.0 && Trim(r.value.0) == r.value.0
  {
    if Trim(line) == [] || StartsWith(line, "value") then None
    else
      var parts := Split(line, '\t');
      if |parts| >= 2 then
        TrimIdempotent(parts[0]);
        Some((Trim(parts[0]), ParseInt(Trim(parts[1]))))
      else None
  }

  function MatchRows(lines: seq<string>): (rows: seq<Option<Row>>)
    ensures |rows| == |lines|
    ensures forall i :: 0 <= i < |lines| ==> rows[i] == ParseMatchLine(lines[i])
  {
    seq(|lines|, i requires 0 <= i < |lines| => ParseMatchLine(lines[i]))
  }

  /** The table after setting each parsed row in order; later rows win. */
  function ApplyRows(table: map<string, Option<int>>, rows: seq<Option<Row>>): map<string, Option<int>>
  {
    if rows == [] then table
    else
      var before := ApplyRows(table, rows[..|rows| - 1]);
      match rows[|rows| - 1]
      case None => before
      case Some((k, v)) => before[k := v]
  }

  /** One more row: the table so far, with that row's key set when the row parsed. */
  lemma ApplyRowsStep(table: map<string, Option<int>>, rows: seq<Option<Row>>, i: nat)
    requires i < |rows|
    ensures ApplyRows(table, rows[..i + 1])
         == if rows[i].Some? then ApplyRows(table, rows[..i])[rows[i].value.0 := rows[i].value.1] else ApplyRows(table, rows[..i])
  {
    assert rows[..i + 1][..i] == rows[..i];
  }

  /** The loop of lines 71-82 on a copy of the table: each line that parses sets its key. */
  method ReadMatchLines(table: map<string, Option<int>>, lines: seq<string>) returns (t: map<string, Option<int>>)
    ensures t == ApplyRows(table, MatchRows(lines))
  {
    ghost var rows := MatchRows(lines);
    t := table;
    var i := 0;
    while i < |lines|
      invariant 0 <= i <= |lines|
      invariant t == ApplyRows(table, rows[..i])
    {
      var row := ParseMatchLine(lines[i]);
      ApplyRowsStep(table, rows, i);
      if row.Some? {
        t := t[row.value.0 := row.value.1];
      }
      i := i + 1;
    }
    assert rows[..|lines|] == rows;
  }

  /** A key is in the loaded table iff it was there before or some row carries it. */
  lemma {:induction false} ApplyRowsKeys(table: map<string, Option<int>>, rows: seq<Option<Row>>, k: string)
    ensures k in ApplyRows(table, rows)
        <==> k in table || exists j :: 0 <= j < |rows| && rows[j].Some? && rows[j].value.0 == k
  {
    if rows != [] {
      var init := rows[..|rows| - 1];
      ApplyRowsKeys(table, init, k);
      assert forall j :: 0 <= j < |init| ==> init[j] == rows[j];
    }
  }

  /** The value of a key comes from the last row that carries it. */
  lemma {:induction false} ApplyRowsLastWins(table: map<string, Option<int>>, rows: seq<Option<Row>>, j: nat)
    requires j < |rows| && rows[j].Some?
    requires forall i :: j < i < |rows| && rows[i].Some? ==> rows[i].value.0 != rows[j].value.0
    ensures rows[j].value.0 in ApplyRows(table, rows)
    ensures ApplyRows(table, rows)[rows[j].value.0] == rows[j].value.1
  {
    var init := rows[..|rows| - 1];
    if j < |rows| - 1 {
      assert init[j] == rows[j];
      forall i | j < i < |init| && init[i].Some?
        ensures init[i].value.0 != init[j].value.0
      {
        assert init[i] == rows[i];
      }
      ApplyRowsLastWins(table, init, j);
    }
  }

  /** The cluster map after setting each cluster under parseInt of its id. */
  function ApplyClusters(m: map<Option<int>, Cluster>, clusters: seq<Cluster>): map<Option<int>, Cluster>
  {
    if clusters == [] then m
    else
      var c := clusters[|clusters| - 1];
      ApplyClusters(m, clusters[..|clusters| - 1])[ParseIntNoRadix(c.clusterId) := c]
  }

  // ---------------------------------------------------------------- scoring

  /** `answers[q] || 3`: a missing or 0 answer counts as the neutral 3. */
  function Answer(answers: map<int, int>, q: int): int
  {
    if q in answers && answers[q] != 0 then answers[q] else 3
  }

  /** Math.ceil(q / 3) - 1 for question q >= 1. */
  function AxisOf(q: nat): (a: int)
    requires q >= 1
    ensures 3 * a + 1 <= q <= 3 * a + 3
  {
    (q + 2) / 3 - 1
  }

  /** The sum of (answer - 3) over the three questions of axis a. */
  function AxisSum(answers: map<int, int>, a: nat): int
  {
    (Answer(answers, 3 * a + 1) - 3) + (Answer(answers, 3 * a + 2) - 3) + (Answer(answers, 3 * a + 3) - 3)
  }

  /** Math.round(sum / 3): the nearest integer, halves rounding up. */
  function RoundThird(sum: int): (r: int)
    ensures 6 * r - 3 <= 2 * sum < 6 * r + 3
  {
    (2 * sum + 3) / 6
  }

  function Clamp(x: int): (r: int)
    ensures -2 <= r <= 2
    ensures -2 <= x <= 2 ==> r == x
  {
    if x < -2 then -2 else if x > 2 then 2 else x
  }

  /** The score vector calculate computes, in AXIS_ORDER. */
  function ScoreVector(answers: map<int, int>): (v: seq<int>)
    ensures |v| == AxisCount
    ensures forall a :: 0 <= a < AxisCount ==> -2 <= v[a] <= 2
  {
    seq(AxisCount, a requires 0 <= a < AxisCount => Clamp(RoundThird(AxisSum(answers, a))))
  }

  /** scoreVector.join(','): no rendered score holds a comma, so a non-empty key splits back into them. */
  function LookupKey(v: seq<int>): (r: string)
    ensures v != [] ==> Split(r, ',') == IntStrings(v)
  {
    var parts := IntStrings(v);
    forall k | 0 <= k < |parts|
      ensures ',' !in parts[k]
    {
      NoCommaInNumber(v[k]);
    }
    if parts != [] then
      SplitJoin(parts, ',');
      Join(parts, ",")
    else Join(parts, ",")
  }

  function IntStrings(v: seq<int>): (r: seq<string>)
    ensures |r| == |v|
    ensures forall i :: 0 <= i < |v| ==> r[i] == IntToString(v[i])
  {
    if v == [] then [] else [IntToString(v[0])] + IntStrings(v[1..])
  }

  /** The key splits back on ',' into the seven rendered scores, which parse back to the scores. */
  lemma LookupKeyDecodes(v: seq<int>)
    requires |v| == AxisCount
    ensures |Split(LookupKey(v), ',')| == AxisCount
    ensures forall a :: 0 <= a < AxisCount ==> ParseInt(Split(LookupKey(v), ',')[a]) == Some(v[a])
  {
    forall a | 0 <= a < AxisCount
      ensures ParseInt(Split(LookupKey(v), ',')[a]) == Some(v[a])
    {
      ParseIntRoundTrip(v[a]);
    }
  }

  lemma NoCommaInNumber(n: int)
    ensures ',' !in IntToString(n)
  {
    var d := NatToString(if n >= 0 then n else -n);
    assert forall i :: 0 <= i < |d| ==> d[i] != ',';
  }

  /** Two answer sheets share a lookup key exactly when their score vectors agree. */
  lemma LookupKeyInjective(v: seq<int>, w: seq<int>)
    requires |v| == AxisCount && |w| == AxisCount
    ensures LookupKey(v) == LookupKey(w) <==> v == w
  {
    if LookupKey(v) == LookupKey(w) {
      LookupKeyDecodes(v);
      LookupKeyDecodes(w);
      assert forall a :: 0 <= a < AxisCount ==> Some(v[a]) == Some(w[a]);
    }
  }

  /** With answers in 1..5 the rounded mean already lies in -2..2, so clamping never acts. */
  lemma ClampInactive(answers: map<int, int>, a: nat)
    requires forall q :: q in answers ==> 0 <= answers[q] <= 5
    ensures -2 <= RoundThird(AxisSum(answers, a)) <= 2
  {
  }

  /** An empty answer sheet is neutral on every axis. */
  lemma EmptyAnswersNeutral()
    ensures ScoreVector(map[]) == [0, 0, 0, 0, 0, 0, 0]
  {
  }

  // ---------------------------------------------------------------- the manager

  class QuizManager {
    var lookupTable: map<string, Option<int>>
    var clusterData: map<Option<int>, Cluster>
    var isLoaded: bool

    constructor()
      ensures lookupTable == map[] && clusterData == map[] && !isLoaded
    {
      lookupTable := map[];
      clusterData := map[];
      isLoaded := false;
    }

    /**
     * loadData (lines 55-106). matchFile is None when match.tsv does not exist.
     * A malformed cluster.json throws after the match rows were stored, and the
     * catch leaves isLoaded false.
     */
    method LoadData(matchFile: Option<string>, clusterFile: ClusterFile)
      modifies this
      ensures old(isLoaded) ==> lookupTable == old(lookupTable) && clusterData == old(clusterData) && isLoaded
      ensures !old(isLoaded) ==> lookupTable == (if matchFile.Some? then ApplyRows(old(lookupTable), MatchRows(Split(matchFile.value, '\n'))) else old(lookupTable))
      ensures !old(isLoaded) ==> clusterData == (if clusterFile.Parsed? then ApplyClusters(old(clusterData), clusterFile.clusters) else old(clusterData))
      ensures !old(isLoaded) ==> (isLoaded <==> !clusterFile.Malformed?)
    {
      if isLoaded {
        return;
      }
      if matchFile.Some? {
        StoreMatchRows(Split(matchFile.value, '\n'));
      }
      if clusterFile.Malformed? {
        return;
      }
      if clusterFile.Parsed? {
        StoreClusters(clusterFile.clusters);
      }
      isLoaded := true;
    }

    /** The loop over the lines of match.tsv (lines 71-82). */
    method StoreMatchRows(lines: seq<string>)
      modifies this
      ensures lookupTable == ApplyRows(old(lookupTable), MatchRows(lines))
      ensures clusterData == old(clusterData) && isLoaded == old(isLoaded)
    {
      lookupTable := ReadMatchLines(lookupTable, lines);
    }

    /** The loop over the clusters of cluster.json (lines 92-94). */
    method StoreClusters(clusters: seq<Cluster>)
      modifies this
      ensures clusterData == ApplyClusters(old(clusterData), clusters)
      ensures lookupTable == old(lookupTable) && isLoaded == old(isLoaded)
    {
      var i := 0;
      while i < |clusters|
        invariant 0 <= i <= |clusters|
        invariant clusterData == ApplyClusters(old(clusterData), clusters[..i])
        invariant lookupTable == old(lookupTable) && isLoaded == old(isLoaded)
      {
        assert clusters[..i + 1][..i] == clusters[..i];
        clusterData := clusterData[ParseIntNoRadix(clusters[i].clusterId) := clusters[i]];
        i := i + 1;
      }
      assert clusters[..|clusters|] == clusters;
    }

    /** calculate (lines 108-181). */
    method Calculate(answers: map<int, int>) returns (r: QuizResult)
      ensures r.scores == ScoreVector(answers)
      ensures LookupKey(r.scores) in lookupTable ==> r.clusterId == lookupTable[LookupKey(r.scores)]
      ensures LookupKey(r.scores) !in lookupTable ==> r.clusterId == Some(1)
      ensures r.clusterData.Some? <==> r.clusterId in clusterData
      ensures r.clusterData.Some? ==> r.clusterData.value == clusterData[r.clusterId]
    {
      var sums := seq(AxisCount, _ => 0);
      var counts := seq(AxisCount, _ => 0);
      var q := 1;
      while q <= QuestionCount
        invariant 1 <= q <= QuestionCount + 1
        invariant |sums| == AxisCount && |counts| == AxisCount
        invariant forall a :: 0 <= a < AxisCount && 3 * a + 3 < q ==> sums[a] == AxisSum(answers, a) && counts[a] == 3
        invariant forall a :: 0 <= a < AxisCount && q <= 3 * a + 1 ==> sums[a] == 0 && counts[a] == 0
        invariant q <= QuestionCount ==>
          var a := AxisOf(q);
          counts[a] == q - (3 * a + 1)
          && sums[a] == (if q > 3 * a + 1 then Answer(answers, 3 * a + 1) - 3 else 0)
                        + (if q > 3 * a + 2 then Answer(answers, 3 * a + 2) - 3 else 0)
      {
        var a := AxisOf(q);
        var score := Answer(answers, q) - 3;
        sums := sums[a := sums[a] + score];
        counts := counts[a := counts[a] + 1];
        q := q + 1;
      }
      var vector: seq<int> := [];
      var a := 0;
      while a < AxisCount
        invariant 0 <= a <= AxisCount
        invariant vector == ScoreVector(answers)[..a]
      {
        var count := if counts[a] != 0 then counts[a] else 3;
        assert count == 3;
        vector := vector + [Clamp(RoundThird(sums[a]))];
        a := a + 1;
      }
      var key := LookupKey(vector);
      var clusterId := if key in lookupTable then lookupTable[key] else Some(1);
      var data := if clusterId in clusterData then Some(clusterData[clusterId]) else None;
      r := QuizResult(clusterId, data, vector);
    }
  }

  /** A match.tsv line that no later line overrides decides the cluster of its vector. */
  lemma LoadedRowDecides(lines: seq<string>, j: nat, answers: map<int, int>)
    requires j < |lines| && ParseMatchLine(lines[j]).Some?
    requires ParseMatchLine(lines[j]).value.0 == LookupKey(ScoreVector(answers))
    requires forall i :: j < i < |lines| && ParseMatchLine(lines[i]).Some? ==> ParseMatchLine(lines[i]).value.0 != ParseMatchLine(lines[j]).value.0
    ensures var table := ApplyRows(map[], MatchRows(lines));
            LookupKey(ScoreVector(answers)) in table && table[LookupKey(ScoreVector(answers))] == ParseMatchLine(lines[j]).value.1
  {
    ApplyRowsLastWins(map[], MatchRows(lines), j);
  }
}
