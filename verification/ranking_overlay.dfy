/**
 * src/screens/write/RankingOverlay.tsx: after choosing a satisfaction the user
 * places a newly visited shop among their shops of the same tier by a binary
 * search of "this one or that one?" questions; the index found is sent to the
 * server and the new rank and percentile are shown.
 */
module RankingOverlay {
  import opened Wrappers

  datatype Satisfaction = Good | Ok | Bad
  datatype Step = ChooseSatisfaction | Ranking | Success
  datatype Mode = Loading | Comparing | Done
  datatype Winner = New | Existing

  /** One shop of the same tier already ranked by the user (lines 18-23). */
  datatype Candidate = Candidate(shopId: int, rank: int)

  /** What is shown on the success step (line 31). */
  datatype RankingResult = RankingResult(rank: int, total: Option<int>, percentile: Option<int>)

  /** The outcome of the candidates request (lines 48-81). */
  datatype Fetch = Threw | NotOk | Loaded(data: seq<Candidate>, totalCount: nat, higherTierCount: nat)

  /** mapSatisfactionToTier (lines 85-92); an unset satisfaction falls to the default, 1. */
  function TierOf(s: Option<Satisfaction>): (tier: int)
    ensures s == Some(Good) <==> tier == 2
    ensures s == Some(Bad) <==> tier == 0
    ensures s == Some(Ok) || s.None? <==> tier == 1
  {
    match s
    case Some(Good) => 2
    case Some(Ok) => 1
    case Some(Bad) => 0
    case None => 1
  }

  /** The optimistic rank of lines 97-106. */
  function RankOf(candidates: seq<Candidate>, insertIndex: nat, baseRank: int): int
  {
    if |candidates| > 0 then
      if insertIndex < |candidates| then candidates[insertIndex].rank
      else candidates[|candidates| - 1].rank + 1
    else baseRank + 1
  }

  /** `Math.ceil(rank / total * 100)` taken as an exact ceiling (line 110). */
  function Percentile(rank: int, safeTotal: int): (p: int)
    requires safeTotal > 0
    ensures (p - 1) * safeTotal < 100 * rank <= p * safeTotal
  {
    -((-(100 * rank)) / safeTotal)
  }

  /**
   * When the candidates hold the ranks just below the higher tiers, in order
   * (base+1, base+2, ...), the new shop takes the rank of the place it is
   * inserted at: base + 1 + insertIndex.
   */
  lemma RankIsPlace(candidates: seq<Candidate>, insertIndex: nat, baseRank: int)
    requires insertIndex <= |candidates|
    requires forall k :: 0 <= k < |candidates| ==> candidates[k].rank == baseRank + 1 + k
    ensures RankOf(candidates, insertIndex, baseRank) == baseRank + 1 + insertIndex
  {
  }

  /** A rank between 1 and the new total gives a percentile between 1 and 100. */
  lemma PercentileRange(rank: int, safeTotal: int)
    requires 1 <= rank <= safeTotal
    ensures 1 <= Percentile(rank, safeTotal) <= 100
  {
    var p := Percentile(rank, safeTotal);
    CancelFactor(p - 1, 100, safeTotal);
    CancelFactor(0, p, safeTotal);
  }

  lemma CancelFactor(a: int, b: int, c: int)
    requires c > 0 && a * c < b * c
    ensures a < b
  {
    assert (a - b) * c == a * c - b * c;
  }

  /** The bounds after one answer (lines 128-135). */
  function NextBounds(minIdx: int, maxIdx: int, compareIdx: int, winner: Winner): (int, int)
  {
    if winner == New then (minIdx, compareIdx - 1) else (compareIdx + 1, maxIdx)
  }

  /**
   * The answers of a user with a consistent taste: `newBeats[i]` says the new
   * shop is better than candidate i, and once it beats one it beats every
   * later (lower-ranked) one.
   */
  predicate Monotone(newBeats: seq<bool>)
  {
    forall i, j :: 0 <= i < j < |newBeats| && newBeats[i] ==> newBeats[j]
  }

  /** Everything before minIdx beats the new shop, everything after maxIdx loses to it. */
  predicate Bracketed(newBeats: seq<bool>, minIdx: int, maxIdx: int)
  {
    0 <= minIdx && maxIdx < |newBeats| && minIdx <= maxIdx + 1
    && (forall i :: 0 <= i < minIdx ==> !newBeats[i])
    && (forall i :: maxIdx < i < |newBeats| ==> newBeats[i])
  }

  function Answer(newBeats: seq<bool>, compareIdx: nat): Winner
    requires compareIdx < |newBeats|
  {
    if newBeats[compareIdx] then New else Existing
  }

  /** A consistent answer keeps the bracket, and the range shrinks. */
  lemma ChoiceKeepsBracket(newBeats: seq<bool>, minIdx: int, maxIdx: int, compareIdx: nat)
    requires Monotone(newBeats) && Bracketed(newBeats, minIdx, maxIdx)
    requires minIdx <= compareIdx <= maxIdx
    ensures var (newMin, newMax) := NextBounds(minIdx, maxIdx, compareIdx, Answer(newBeats, compareIdx));
            Bracketed(newBeats, newMin, newMax) && newMax - newMin < maxIdx - minIdx
  {
  }

  /**
   * When the search stops (min > max) the index found is the first candidate
   * the new shop beats, or the end of the list if it beats none.
   */
  lemma {:induction false} SearchFindsBoundary(newBeats: seq<bool>, minIdx: int, maxIdx: int)
    requires Bracketed(newBeats, minIdx, maxIdx) && minIdx > maxIdx
    ensures 0 <= minIdx <= |newBeats|
    ensures forall i :: 0 <= i < minIdx ==> !newBeats[i]
    ensures forall i :: minIdx <= i < |newBeats| ==> newBeats[i]
  {
    assert minIdx == maxIdx + 1;
  }

  class RankingOverlayState {
    var step: Step
    var satisfaction: Option<Satisfaction>
    var mode: Mode
    var result: Option<RankingResult>
    var totalCount: nat
    var baseRank: nat
    var candidates: seq<Candidate>
    var minIdx: int
    var maxIdx: int
    var compareIdx: int
    /** The insert index sent to the server, if any. */
    var sent: Option<int>

    /** While comparing, 0 <= min <= compare <= max < len. */
    predicate Valid()
      reads this
    {
      mode == Comparing ==> 0 <= minIdx <= compareIdx <= maxIdx < |candidates|
    }

    /** The initial state of lines 27-40. */
    constructor()
      ensures Valid()
      ensures step == ChooseSatisfaction && satisfaction.None? && mode == Loading && result.None?
      ensures totalCount == 0 && baseRank == 0 && candidates == [] && minIdx == 0 && maxIdx == 0 && compareIdx == 0
      ensures sent.None?
    {
      step := ChooseSatisfaction;
      satisfaction := None;
      mode := Loading;
      result := None;
      totalCount := 0;
      baseRank := 0;
      candidates := [];
      minIdx := 0;
      maxIdx := 0;
      compareIdx := 0;
      sent := None;
    }

    /** handleSatisfactionSelect (lines 149-152). */
    method SelectSatisfaction(s: Satisfaction)
      modifies this
      ensures satisfaction == Some(s) && step == Ranking
      ensures mode == old(mode) && candidates == old(candidates) && result == old(result) && sent == old(sent)
      ensures minIdx == old(minIdx) && maxIdx == old(maxIdx) && compareIdx == old(compareIdx)
    {
      satisfaction := Some(s);
      step := Ranking;
    }

    /**
     * saveRank (lines 94-125): the optimistic rank and percentile are shown
     * and the insert index is sent; a failed send shows rank 0.
     */
    method SaveRank(insertIndex: nat, currentTotal: int, currentBaseRank: int, sendOk: bool)
      requires currentTotal >= 0
      modifies this
      ensures sent == Some(insertIndex)
      ensures sendOk ==>
                var myRank := RankOf(candidates, insertIndex, currentBaseRank);
                result == Some(RankingResult(myRank, Some(currentTotal + 1), Some(Percentile(myRank, currentTotal + 1))))
      ensures !sendOk ==> result == Some(RankingResult(0, None, None))
      ensures step == old(step) && mode == old(mode) && candidates == old(candidates) && satisfaction == old(satisfaction)
      ensures minIdx == old(minIdx) && maxIdx == old(maxIdx) && compareIdx == old(compareIdx)
      ensures totalCount == old(totalCount) && baseRank == old(baseRank)
    {
      var myRank := currentBaseRank + 1;
      if |candidates| > 0 {
        if insertIndex < |candidates| {
          myRank := candidates[insertIndex].rank;
        } else {
          myRank := candidates[|candidates| - 1].rank + 1;
        }
      }
      var safeTotal := currentTotal + 1;
      var percentile := Percentile(myRank, safeTotal);
      result := Some(RankingResult(myRank, Some(safeTotal), Some(percentile)));
      sent := Some(insertIndex);
      if !sendOk {
        result := Some(RankingResult(0, None, None));
      }
    }

    /**
     * fetchCandidates (lines 48-83) once the request has settled: with no
     * candidates the shop is saved at index 0, otherwise the search starts on
     * the whole list at its middle.
     */
    method FetchCandidates(response: Fetch, sendOk: bool)
      modifies this
      ensures Valid()
      ensures response.Threw? ==> step == Success && mode == Loading && sent == old(sent) && candidates == old(candidates)
      ensures response.NotOk? ==> step == Success && mode == Loading && sent == Some(0) && candidates == old(candidates)
      ensures response.Loaded? && response.data == [] ==>
                step == Success && mode == Done && sent == Some(0)
                && totalCount == response.totalCount && baseRank == response.higherTierCount
      ensures response.Loaded? && response.data != [] ==>
                mode == Comparing && candidates == response.data && step == old(step) && sent == old(sent)
                && minIdx == 0 && maxIdx == |response.data| - 1 && compareIdx == (|response.data| - 1) / 2
                && totalCount == response.totalCount && baseRank == response.higherTierCount
    {
      mode := Loading;
      match response
      case Threw =>
        step := Success;
      case NotOk =>
        SaveRank(0, 0, 0, sendOk);
        step := Success;
      case Loaded(data, total, higherCount) =>
        totalCount := total;
        baseRank := higherCount;
        if |data| == 0 {
          SaveRank(0, total, higherCount, sendOk);
          mode := Done;
          step := Success;
        } else {
          candidates := data;
          minIdx := 0;
          maxIdx := |data| - 1;
          compareIdx := (0 + |data| - 1) / 2;
          mode := Comparing;
        }
    }

    /**
     * handleChoice (lines 127-147): the range is halved towards the winner;
     * once it is empty the shop is saved at the new lower bound, which lies
     * in [0, len].
     */
    method HandleChoice(winner: Winner, sendOk: bool)
      requires Valid() && mode == Comparing
      modifies this
      ensures Valid()
      ensures var (newMin, newMax) := NextBounds(old(minIdx), old(maxIdx), old(compareIdx), winner);
              (newMin > newMax ==>
                 mode == Done && step == Success && sent == Some(newMin) && 0 <= newMin <= |candidates|)
              && (newMin <= newMax ==>
                    mode == Comparing && minIdx == newMin && maxIdx == newMax && compareIdx == (newMin + newMax) / 2
                    && maxIdx - minIdx < old(maxIdx) - old(minIdx) && sent == old(sent) && step == old(step))
      ensures candidates == old(candidates)
    {
      var newMin := minIdx;
      var newMax := maxIdx;
      if winner == New {
        newMax := compareIdx - 1;
      } else {
        newMin := compareIdx + 1;
      }
      if newMin > newMax {
        SaveRank(newMin, totalCount, baseRank, sendOk);
        mode := Done;
        step := Success;
        return;
      }
      minIdx := newMin;
      maxIdx := newMax;
      compareIdx := (newMin + newMax) / 2;
    }
  }
}
