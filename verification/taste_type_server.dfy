/**
 * server/utils/tasteType.ts: seven taste-axis scores map to one of 32 type
 * codes "[L|H][D|A][U|S][F|P]-[A|T]". Scores are integers here; the source's
 * divisions by 2 and by 7 are carried out on reals, as JavaScript numbers do.
 */
module TasteTypeServer {
  import opened Wrappers

  /** TasteScores: every axis is optional and defaults to 0. */
  datatype Scores = Scores(
    boldness: Option<int>, acidity: Option<int>, richness: Option<int>, experimental: Option<int>,
    spiciness: Option<int>, sweetness: Option<int>, umami: Option<int>)

  datatype Axes = Axes(intensity: char, flavor: char, pleasure: char, exploration: char)

  /** stabilityScore is kept in hundredths: 143 stands for 1.43. */
  datatype TasteType = TasteType(baseCode: string, subtype: char, fullType: string, axes: Axes, stabilityHundredths: int)

  function Abs(x: int): nat { if x < 0 then -x else x }

  /** The sum of the seven absolute scores, missing ones counting as 0. */
  function AbsSum(s: Scores): nat
  {
    Abs(s.boldness.GetOr(0)) + Abs(s.acidity.GetOr(0)) + Abs(s.richness.GetOr(0))
    + Abs(s.experimental.GetOr(0)) + Abs(s.spiciness.GetOr(0)) + Abs(s.sweetness.GetOr(0))
    + Abs(s.umami.GetOr(0))
  }

  /** Math.round for a non-negative real: the nearest integer, halves rounding up. */
  function RoundHalfUp(x: real): int
  {
    (x + 0.5).Floor
  }

  /** calculateTasteType (lines 59-102). */
  function Calculate(s: Scores): (t: TasteType)
    ensures t.axes.intensity == 'H' <==> s.boldness.GetOr(0) + s.spiciness.GetOr(0) >= 1
    ensures t.axes.flavor == 'A' <==> s.acidity.GetOr(0) >= s.richness.GetOr(0) + 1
    ensures t.axes.pleasure == 'S' <==> s.sweetness.GetOr(0) >= s.umami.GetOr(0) + 1
    ensures t.axes.exploration == 'P' <==> s.experimental.GetOr(0) >= 1
    ensures t.subtype == 'A' <==> AbsSum(s) >= 9
    ensures t.fullType == t.baseCode + "-" + [t.subtype]
    ensures t.baseCode == [t.axes.intensity, t.axes.flavor, t.axes.pleasure, t.axes.exploration]
    ensures -3 <= 7 * t.stabilityHundredths - 100 * AbsSum(s) <= 3
  {
    var boldness := s.boldness.GetOr(0);
    var acidity := s.acidity.GetOr(0);
    var richness := s.richness.GetOr(0);
    var experimental := s.experimental.GetOr(0);
    var spiciness := s.spiciness.GetOr(0);
    var sweetness := s.sweetness.GetOr(0);
    var umami := s.umami.GetOr(0);
    var intensityValue := (boldness + spiciness) as real / 2.0;
    var flavorValue := acidity - richness;
    var pleasureValue := sweetness - umami;
    var explorationValue := experimental;
    var axes := Axes(
      if intensityValue > 0.0 then 'H' else 'L',
      if flavorValue > 0 then 'A' else 'D',
      if pleasureValue > 0 then 'S' else 'U',
      if explorationValue > 0 then 'P' else 'F');
    var stability := AbsSum(s) as real / 7.0;
    var subtype := if stability >= 1.2 then 'A' else 'T';
    var baseCode := [axes.intensity, axes.flavor, axes.pleasure, axes.exploration];
    TasteType(baseCode, subtype, baseCode + "-" + [subtype], axes, RoundHalfUp(stability * 100.0))
  }

  // ---------------------------------------------------------------- the 32 codes

  const IntensityOptions := "LH"
  const FlavorOptions := "DA"
  const PleasureOptions := "US"
  const ExplorationOptions := "FP"
  const SubtypeOptions := "AT"

  function Code(i: char, f: char, p: char, e: char, s: char): string
  {
    [i, f, p, e, '-', s]
  }

  /** A well-formed type code: four axis letters, a dash and a subtype letter. */
  predicate IsTypeCode(c: string)
  {
    |c| == 6 && c[0] in IntensityOptions && c[1] in FlavorOptions && c[2] in PleasureOptions
    && c[3] in ExplorationOptions && c[4] == '-' && c[5] in SubtypeOptions
  }

  /**
   * The code pushed as the m-th one (0 <= m < 32): the loops run intensity
   * slowest and subtype fastest, so m's binary digits pick the letters.
   */
  function CodeAt(m: nat): string
    requires m < 32
  {
    Code(IntensityOptions[m / 16], FlavorOptions[m / 8 % 2], PleasureOptions[m / 4 % 2],
         ExplorationOptions[m / 2 % 2], SubtypeOptions[m % 2])
  }

  /** The code with digits a, b, c, d, k (each 0 or 1) is the one at their binary value. */
  lemma CodeAtDigits(a: nat, b: nat, c: nat, d: nat, k: nat)
    requires a < 2 && b < 2 && c < 2 && d < 2 && k < 2
    ensures CodeAt(16 * a + 8 * b + 4 * c + 2 * d + k)
      == Code(IntensityOptions[a], FlavorOptions[b], PleasureOptions[c], ExplorationOptions[d], SubtypeOptions[k])
  {
    var m := 16 * a + 8 * b + 4 * c + 2 * d + k;
    assert m / 16 == a && m / 8 % 2 == b && m / 4 % 2 == c && m / 2 % 2 == d && m % 2 == k;
  }

  /** What getAllTasteTypes returns. */
  function AllCodes(): seq<string>
  {
    seq(32, m requires 0 <= m < 32 => CodeAt(m))
  }

  /** getAllTasteTypes (lines 109-132): five nested loops pushing one code each. */
  method AllTasteTypes() returns (types: seq<string>)
    ensures types == AllCodes()
  {
    types := [];
    for a := 0 to 2
      invariant |types| == 16 * a
      invariant forall m :: 0 <= m < |types| ==> types[m] == CodeAt(m)
    {
      for b := 0 to 2
        invariant |types| == 16 * a + 8 * b
        invariant forall m :: 0 <= m < |types| ==> types[m] == CodeAt(m)
      {
        for c := 0 to 2
          invariant |types| == 16 * a + 8 * b + 4 * c
          invariant forall m :: 0 <= m < |types| ==> types[m] == CodeAt(m)
        {
          for d := 0 to 2
            invariant |types| == 16 * a + 8 * b + 4 * c + 2 * d
            invariant forall m :: 0 <= m < |types| ==> types[m] == CodeAt(m)
          {
            for k := 0 to 2
              invariant |types| == 16 * a + 8 * b + 4 * c + 2 * d + k
              invariant forall m :: 0 <= m < |types| ==> types[m] == CodeAt(m)
            {
              var code := Code(IntensityOptions[a], FlavorOptions[b], PleasureOptions[c],
                               ExplorationOptions[d], SubtypeOptions[k]);
              CodeAtDigits(a, b, c, d, k);
              types := types + [code];
            }
          }
        }
      }
    }
  }

  predicate Distinct(s: seq<string>)
  {
    forall i, j :: 0 <= i < j < |s| ==> s[i] != s[j]
  }

  /** The index of the code c in push order. */
  function IndexOf(c: string): nat
    requires IsTypeCode(c)
  {
    16 * (if c[0] == 'L' then 0 else 1) + 8 * (if c[1] == 'D' then 0 else 1)
    + 4 * (if c[2] == 'U' then 0 else 1) + 2 * (if c[3] == 'F' then 0 else 1)
    + (if c[5] == 'A' then 0 else 1)
  }

  lemma CodeAtIndexOf(m: nat)
    requires m < 32
    ensures IsTypeCode(CodeAt(m)) && IndexOf(CodeAt(m)) == m
  {
  }

  /** getAllTasteTypes returns 32 different codes, and exactly the well-formed ones. */
  lemma AllCodesComplete()
    ensures |AllCodes()| == 32
    ensures Distinct(AllCodes())
    ensures forall c :: c in AllCodes() <==> IsTypeCode(c)
  {
    var all := AllCodes();
    forall i, j | 0 <= i < j < 32
      ensures all[i] != all[j]
    {
      CodeAtIndexOf(i);
      CodeAtIndexOf(j);
    }
    forall c | c in all
      ensures IsTypeCode(c)
    {
      var m :| 0 <= m < 32 && all[m] == c;
      CodeAtIndexOf(m);
    }
    forall c | IsTypeCode(c)
      ensures c in all
    {
      IndexOfCodeAt(c);
      assert all[IndexOf(c)] == c;
    }
  }

  lemma IndexOfCodeAt(c: string)
    requires IsTypeCode(c)
    ensures IndexOf(c) < 32 && CodeAt(IndexOf(c)) == c
  {
    var m := IndexOf(c);
    assert m < 32;
    assert CodeAt(m) == [c[0], c[1], c[2], c[3], c[4], c[5]];
  }

  /** isValidTasteType (lines 140-143): a code is valid exactly when it is well formed. */
  predicate IsValidTasteType(code: string)
    ensures IsValidTasteType(code) <==> IsTypeCode(code)
  {
    AllCodesComplete();
    code in AllCodes()
  }

  /** Every code calculateTasteType produces passes isValidTasteType. */
  lemma CalculateIsValid(s: Scores)
    ensures IsValidTasteType(Calculate(s).fullType)
  {
    AllCodesComplete();
  }

  /** The cases of server/utils/tasteType.test.ts. */
  lemma ValidationExamples()
    ensures IsValidTasteType("HASP-A") && IsValidTasteType("LDUF-T")
    ensures !IsValidTasteType("XXXX-X") && !IsValidTasteType("HASP") && !IsValidTasteType("")
    ensures Calculate(Scores(Some(2), Some(2), Some(-1), Some(2), Some(1), Some(1), Some(-1))).fullType == "HASP-A"
    ensures Calculate(Scores(Some(-1), Some(-1), Some(1), Some(-1), Some(-1), Some(-1), Some(1))).fullType == "LDUF-T"
  {
    AllCodesComplete();
  }
}
