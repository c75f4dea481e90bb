/**
 * src/lib/utils.ts: the Korean particle helper and the relative visit date.
 */
module Utils {
  import opened Wrappers

  const HangulBase := 0xAC00

  datatype Josa = EulReul | IGa | EunNeun | WaGwa

  /** `charCodeAt`: the UTF-16 code unit, the low surrogate for a character beyond the basic plane. */
  function CodeUnit(c: char): (u: int)
    ensures 0 <= u <= 0xFFFF
    ensures c as int <= 0xFFFF ==> u == c as int
  {
    if c as int <= 0xFFFF then c as int else 0xDC00 + (c as int - 0x10000) % 0x400
  }

  /** JavaScript's `%`, which truncates toward zero: the sign follows the dividend. */
  function JsRem(a: int, b: int): (r: int)
    requires b > 0
    ensures a >= 0 ==> r == a % b
    ensures a < 0 ==> -b < r <= 0
  {
    if a >= 0 then a % b else -((-a) % b)
  }

  /**
   * `(lastChar - 0xAC00) % 28 > 0` (lines 9-10); for an empty word the code
   * is NaN and the test is false.
   */
  predicate HasJongseong(word: string)
  {
    word != [] && JsRem(CodeUnit(word[|word| - 1]) - HangulBase, 28) > 0
  }

  /** The particle of lines 12-17. */
  function Particle(josa: Josa, hasJongseong: bool): string
  {
    match josa
    case EulReul => if hasJongseong then "을" else "를"
    case IGa => if hasJongseong then "이" else "가"
    case EunNeun => if hasJongseong then "은" else "는"
    case WaGwa => if hasJongseong then "과" else "와"
  }

  /** appendJosa (lines 8-20). */
  function AppendJosa(word: string, josa: Josa): (r: string)
    ensures |r| == |word| + 1 && r[..|word|] == word
  {
    word + Particle(josa, HasJongseong(word))
  }

  /** The Hangul syllable with lead consonant l, vowel v and final consonant t (0 for none). */
  function Syllable(l: nat, v: nat, t: nat): char
    requires l < 19 && v < 21 && t < 28
  {
    (HangulBase + (l * 21 + v) * 28 + t) as char
  }

  /**
   * For a word ending in a Hangul syllable, the particle is the form for a
   * final consonant exactly when the syllable has one; a word ending in any
   * character before the Hangul block, such as a Latin letter or a digit,
   * takes the form for none.
   */
  lemma AppendJosaSpec(word: string, josa: Josa, l: nat, v: nat, t: nat)
    requires l < 19 && v < 21 && t < 28
    ensures AppendJosa(word + [Syllable(l, v, t)], josa) == word + [Syllable(l, v, t)] + Particle(josa, t > 0)
    ensures forall c: char :: c as int < HangulBase ==> !HasJongseong(word + [c])
  {
    var w := word + [Syllable(l, v, t)];
    assert w[|w| - 1] == Syllable(l, v, t);
    assert (l * 21 + v) * 28 + t == t + 28 * (l * 21 + v);
  }

  /** The label formatVisitDate picks (lines 36-58); the count is NaN for an unreadable date. */
  datatype VisitLabel = Today | DaysAgo(count: int) | WeeksAgo(count: int) | MonthsAgo(count: int) | YearsAgo(count: int) | YearsAgoNaN

  const DayMs := 1000 * 60 * 60 * 24

  /** Line 34: whole days between the two local midnights, rounded down. */
  function DiffDays(todayMs: int, targetMs: int): int
  {
    (todayMs - targetMs) / DayMs
  }

  /** formatVisitDate for a day difference, None standing for NaN. */
  function FormatVisitDate(diffDays: Option<int>): (r: VisitLabel)
    ensures r == YearsAgoNaN <==> diffDays.None?
    ensures r.WeeksAgo? ==> 1 <= r.count <= 4
    ensures r.MonthsAgo? ==> 1 <= r.count <= 12
    ensures r.YearsAgo? ==> r.count >= 1
  {
    match diffDays
    case None => YearsAgoNaN
    case Some(d) =>
      if d == 0 then Today
      else if d < 7 then DaysAgo(d)
      else if d < 30 then WeeksAgo(d / 7)
      else if d < 365 then MonthsAgo(d / 30)
      else YearsAgo(d / 365)
  }

  /**
   * Each label's count is the number of whole units elapsed, never zero past
   * the first week; a future date gives a negative day count.
   */
  lemma FormatVisitDateSpec(d: int)
    ensures FormatVisitDate(Some(d)) == Today <==> d == 0
    ensures FormatVisitDate(Some(d)).DaysAgo? <==> d < 7 && d != 0
    ensures d < 0 ==> FormatVisitDate(Some(d)) == DaysAgo(d)
    ensures FormatVisitDate(Some(d)).DaysAgo? ==> FormatVisitDate(Some(d)).count == d
    ensures FormatVisitDate(Some(d)).WeeksAgo? <==> 7 <= d < 30
    ensures FormatVisitDate(Some(d)).MonthsAgo? <==> 30 <= d < 365
    ensures FormatVisitDate(Some(d)).YearsAgo? <==> 365 <= d
    ensures var l := FormatVisitDate(Some(d));
            (l.WeeksAgo? ==> 1 <= l.count <= 4 && 7 * l.count <= d < 7 * (l.count + 1))
            && (l.MonthsAgo? ==> 1 <= l.count <= 12 && 30 * l.count <= d < 30 * (l.count + 1))
            && (l.YearsAgo? ==> 1 <= l.count && 365 * l.count <= d < 365 * (l.count + 1))
  {
  }

  /** A visit one day earlier at the same time of day is "1 day ago"; the same moment is "today". */
  lemma DiffDaysWholeDays(targetMs: int, k: nat)
    ensures DiffDays(targetMs + k * DayMs, targetMs) == k
    ensures FormatVisitDate(Some(DiffDays(targetMs, targetMs))) == Today
  {
  }
}
