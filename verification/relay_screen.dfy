/**
 * src/screens/relay/RelayScreen.tsx: the relay screen deals shop cards; a
 * swipe rates the current shop. Every 30th rating opens the milestone dialog,
 * every 5th may start a round of A-versus-B comparisons within one tier, and
 * a comparison winner moves ahead of the loser in the rating list. The 350 ms
 * animation delay is modelled by Swipe returning what Settle does later.
 */
module RelayScreen {
  import opened Wrappers

  const RatingsPerBatch := 30
  const ComparisonInterval := 5

  datatype Direction = Left | Right | Up | Back
  datatype Satisfaction = Good | Ok | Bad

  datatype Rating = Rating(shopId: int, satisfaction: Satisfaction)
  datatype Pair = Pair(a: Rating, b: Rating)

  /** What the screen does once the card's exit animation ends. */
  datatype Pending = ShowMilestone | StartComparison(pairs: seq<Pair>) | MoveNext

  datatype Stats = Stats(recorded: nat, skipped: nat, good: nat, ok: nat, bad: nat)

  /** satisfactionMap of lines 141-146. */
  function SatisfactionOf(direction: Direction): (s: Satisfaction)
    ensures direction == Right <==> s == Good
    ensures direction == Left <==> s == Bad
    ensures direction == Up || direction == Back <==> s == Ok
  {
    match direction
    case Right => Good
    case Up => Ok
    case Left => Bad
    case Back => Ok
  }

  function Count(stats: Stats, s: Satisfaction): (r: Stats)
    ensures r.recorded == stats.recorded + 1 && r.skipped == stats.skipped
    ensures r.good == stats.good + (if s == Good then 1 else 0)
    ensures r.ok == stats.ok + (if s == Ok then 1 else 0)
    ensures r.bad == stats.bad + (if s == Bad then 1 else 0)
  {
    match s
    case Good => stats.(recorded := stats.recorded + 1, good := stats.good + 1)
    case Ok => stats.(recorded := stats.recorded + 1, ok := stats.ok + 1)
    case Bad => stats.(recorded := stats.recorded + 1, bad := stats.bad + 1)
  }

  /** The ratings of one tier, in rating order (the grouping loop of lines 282-285). */
  function Group(ratings: seq<Rating>, s: Satisfaction): (r: seq<Rating>)
    ensures |r| <= |ratings|
    ensures forall k :: 0 <= k < |r| ==> r[k].satisfaction == s && r[k] in ratings
  {
    if ratings == [] then []
    else
      var n := |ratings| - 1;
      var init := Group(ratings[..n], s);
      assert forall k :: 0 <= k < |init| ==> init[k] in ratings;
      if ratings[n].satisfaction == s then init + [ratings[n]] else init
  }

  function CountOf(ratings: seq<Rating>, t: Option<Satisfaction>): nat
  {
    if t.None? then 0 else |Group(ratings, t.value)|
  }

  /** The tier loop of lines 288-296 over the first tiers of the list. */
  function Leader(ratings: seq<Rating>, tiers: seq<Satisfaction>): Option<Satisfaction>
  {
    if tiers == [] then None
    else
      var prev := Leader(ratings, tiers[..|tiers| - 1]);
      var t := tiers[|tiers| - 1];
      if |Group(ratings, t)| >= 2 && |Group(ratings, t)| > CountOf(ratings, prev) then Some(t) else prev
  }

  const TierOrder := [Good, Ok, Bad]

  function TargetTier(ratings: seq<Rating>): Option<Satisfaction>
  {
    Leader(ratings, TierOrder)
  }

  /** generateComparisonPairs (lines 280-313): one or two pairs of the latest ratings of the target tier. */
  function ComparisonPairs(ratings: seq<Rating>): seq<Pair>
  {
    match TargetTier(ratings)
    case None => []
    case Some(t) => LatestPairs(Group(ratings, t))
  }

  /** The last two items as a pair, then the two before them when there are four. */
  function LatestPairs(items: seq<Rating>): seq<Pair>
  {
    var len := |items|;
    (if len >= 2 then [Pair(items[len - 2], items[len - 1])] else [])
    + (if len >= 4 then [Pair(items[len - 4], items[len - 3])] else [])
  }

  /** The target is the largest tier with at least two ratings; a tie goes to the earlier of good, ok, bad. */
  lemma TargetTierSpec(ratings: seq<Rating>)
    ensures TargetTier(ratings).None? <==> forall s: Satisfaction :: |Group(ratings, s)| < 2
    ensures TargetTier(ratings).Some? ==>
              var t := TargetTier(ratings).value;
              |Group(ratings, t)| >= 2
              && (forall s: Satisfaction :: |Group(ratings, s)| <= |Group(ratings, t)|)
              && (t == Ok ==> |Group(ratings, Good)| < |Group(ratings, Ok)|)
              && (t == Bad ==> |Group(ratings, Good)| < |Group(ratings, Bad)| && |Group(ratings, Ok)| < |Group(ratings, Bad)|)
  {
    var g, o, b := |Group(ratings, Good)|, |Group(ratings, Ok)|, |Group(ratings, Bad)|;
    assert [Good][..0] == [] && Leader(ratings, []) == None;
    var l1 := Leader(ratings, [Good]);
    assert l1 == if g >= 2 then Some(Good) else None;
    assert [Good, Ok][..1] == [Good];
    var l2 := Leader(ratings, [Good, Ok]);
    assert l2 == if o >= 2 && o > CountOf(ratings, l1) then Some(Ok) else l1;
    assert TierOrder[..2] == [Good, Ok];
    assert TargetTier(ratings) == if b >= 2 && b > CountOf(ratings, l2) then Some(Bad) else l2;
  }

  /**
   * Pairs exist exactly when some tier has two ratings; each pair holds two
   * ratings of the target tier, the latest two first, then the two before.
   */
  lemma ComparisonPairsSpec(ratings: seq<Rating>)
    ensures ComparisonPairs(ratings) == [] <==> forall s: Satisfaction :: |Group(ratings, s)| < 2
    ensures ComparisonPairs(ratings) != [] ==>
              var items := Group(ratings, TargetTier(ratings).value);
              var len := |items|;
              var pairs := ComparisonPairs(ratings);
              |pairs| == (if len >= 4 then 2 else 1)
              && pairs[0] == Pair(items[len - 2], items[len - 1])
              && (len >= 4 ==> pairs[1] == Pair(items[len - 4], items[len - 3]))
              && forall k :: 0 <= k < |pairs| ==> pairs[k].a.satisfaction == pairs[k].b.satisfaction
  {
    TargetTierSpec(ratings);
    if TargetTier(ratings).Some? {
      var t := TargetTier(ratings).value;
      LatestPairsSpec(Group(ratings, t), t);
    }
  }

  /** The pairs of a list of two or more ratings of one tier. */
  lemma LatestPairsSpec(items: seq<Rating>, t: Satisfaction)
    requires |items| >= 2
    requires forall k :: 0 <= k < |items| ==> items[k].satisfaction == t
    ensures var len := |items|;
            var pairs := LatestPairs(items);
            |pairs| == (if len >= 4 then 2 else 1)
            && pairs[0] == Pair(items[len - 2], items[len - 1])
            && (len >= 4 ==> pairs[1] == Pair(items[len - 4], items[len - 3]))
            && forall k :: 0 <= k < |pairs| ==> pairs[k].a.satisfaction == t && pairs[k].b.satisfaction == t
  {
  }

  /** What the end of the animation brings after a rating that makes the list `ratings` (lines 162-187). */
  function Outcome(ratings: seq<Rating>): Pending
  {
    if |ratings| >= RatingsPerBatch && |ratings| % RatingsPerBatch == 0 then ShowMilestone
    else if |ratings| >= ComparisonInterval && |ratings| % ComparisonInterval == 0 && |ComparisonPairs(ratings)| > 0 then
      StartComparison(ComparisonPairs(ratings))
    else MoveNext
  }

  /**
   * Every 30th rating opens the milestone dialog and suppresses the
   * comparison; otherwise every 5th rating starts the comparisons exactly
   * when there are pairs to compare; any other rating moves on.
   */
  lemma OutcomeSpec(ratings: seq<Rating>)
    requires ratings != []
    ensures Outcome(ratings) == ShowMilestone <==> |ratings| % RatingsPerBatch == 0
    ensures Outcome(ratings).StartComparison? <==>
              |ratings| % RatingsPerBatch != 0 && |ratings| % ComparisonInterval == 0
              && exists s: Satisfaction :: |Group(ratings, s)| >= 2
    ensures Outcome(ratings).StartComparison? ==> Outcome(ratings).pairs == ComparisonPairs(ratings)
  {
    PositiveMultiples(|ratings|);
    PairsExist(ratings);
    TargetTierSpec(ratings);
    if TargetTier(ratings).Some? {
      assert |Group(ratings, TargetTier(ratings).value)| >= 2;
    }
  }

  /** A positive multiple of an interval is at least that interval. */
  lemma PositiveMultiples(n: nat)
    requires n > 0
    ensures n % RatingsPerBatch == 0 ==> n >= RatingsPerBatch
    ensures n % ComparisonInterval == 0 ==> n >= ComparisonInterval
  {
  }

  lemma PairsExist(ratings: seq<Rating>)
    ensures ComparisonPairs(ratings) == [] <==> TargetTier(ratings).None?
  {
    TargetTierSpec(ratings);
  }

  /** The choice of lines 149-187 once the rating is stored. */
  method DecideOutcome(newRatings: seq<Rating>) returns (pending: Pending)
    ensures pending == Outcome(newRatings)
  {
    if |newRatings| >= RatingsPerBatch && |newRatings| % RatingsPerBatch == 0 {
      return ShowMilestone;
    }
    if |newRatings| >= ComparisonInterval && |newRatings| % ComparisonInterval == 0 {
      var pairs := GenerateComparisonPairs(newRatings);
      if |pairs| > 0 {
        return StartComparison(pairs);
      }
    }
    return MoveNext;
  }

  /** Array.prototype.findIndex on the shop id: the first match, or -1. */
  function FindIndex(ratings: seq<Rating>, shopId: int): (i: int)
    ensures -1 <= i < |ratings|
    ensures i >= 0 ==> ratings[i].shopId == shopId && forall k :: 0 <= k < i ==> ratings[k].shopId != shopId
    ensures i == -1 ==> forall k :: 0 <= k < |ratings| ==> ratings[k].shopId != shopId
  {
    if ratings == [] then -1
    else if ratings[0].shopId == shopId then 0
    else
      var i := FindIndex(ratings[1..], shopId);
      if i == -1 then -1 else i + 1
  }

  /** `splice(i, 1)`. */
  function RemoveAt(s: seq<Rating>, i: nat): (r: seq<Rating>)
    requires i < |s|
    ensures |r| == |s| - 1
  {
    s[..i] + s[i + 1..]
  }

  /** `splice(i, 0, x)`. */
  function InsertAt(s: seq<Rating>, i: nat, x: Rating): (r: seq<Rating>)
    requires i <= |s|
    ensures |r| == |s| + 1
  {
    s[..i] + [x] + s[i..]
  }

  /** The update of lines 317-331: the winner moves directly before the loser if it was behind it. */
  function Reordered(ratings: seq<Rating>, winnerId: int, pair: Pair): seq<Rating>
  {
    var winnerIdx := FindIndex(ratings, winnerId);
    var loserId := if pair.a.shopId == winnerId then pair.b.shopId else pair.a.shopId;
    var loserIdx := FindIndex(ratings, loserId);
    if winnerIdx > loserIdx && winnerIdx >= 0 && loserIdx >= 0 then
      InsertAt(RemoveAt(ratings, winnerIdx), loserIdx, ratings[winnerIdx])
    else ratings
  }

  /**
   * Moving the rating at w to position l < w keeps the same ratings, leaves
   * everything before l and after w alone, and shifts the span [l, w) back by one.
   */
  lemma MoveSpec(s: seq<Rating>, w: nat, l: nat)
    requires l < w < |s|
    ensures var r := InsertAt(RemoveAt(s, w), l, s[w]);
            multiset(r) == multiset(s) && |r| == |s|
            && r[l] == s[w]
            && (forall k :: 0 <= k < l || w < k < |s| ==> r[k] == s[k])
            && (forall k :: l <= k < w ==> r[k + 1] == s[k])
  {
    MoveShape(s, w, l);
    MovePermutes(s, w, l);
  }

  /**
   * A comparison keeps the same ratings; the winner lands where the loser was
   * when it had been behind, and nothing moves otherwise.
   */
  lemma ReorderedSpec(ratings: seq<Rating>, winnerId: int, pair: Pair)
    ensures multiset(Reordered(ratings, winnerId, pair)) == multiset(ratings)
    ensures var w := FindIndex(ratings, winnerId);
            var loserId := if pair.a.shopId == winnerId then pair.b.shopId else pair.a.shopId;
            var l := FindIndex(ratings, loserId);
            (0 <= l < w ==> Reordered(ratings, winnerId, pair)[l] == ratings[w]
                            && Reordered(ratings, winnerId, pair)[l + 1] == ratings[l])
            && (!(0 <= l < w) ==> Reordered(ratings, winnerId, pair) == ratings)
  {
    var w := FindIndex(ratings, winnerId);
    var loserId := if pair.a.shopId == winnerId then pair.b.shopId else pair.a.shopId;
    var l := FindIndex(ratings, loserId);
    var r := Reordered(ratings, winnerId, pair);
    if 0 <= l < w {
      assert r == InsertAt(RemoveAt(ratings, w), l, ratings[w]);
      MoveSpec(ratings, w, l);
    } else {
      assert r == ratings;
    }
  }

  lemma MovePermutes(s: seq<Rating>, w: nat, l: nat)
    requires l < w < |s|
    ensures multiset(s[..l] + [s[w]] + s[l..w] + s[w + 1..]) == multiset(s)
  {
    calc {
      multiset(s);
      { assert s == s[..l] + s[l..w] + [s[w]] + s[w + 1..]; }
      multiset(s[..l] + s[l..w] + [s[w]] + s[w + 1..]);
      multiset(s[..l]) + multiset(s[l..w]) + multiset([s[w]]) + multiset(s[w + 1..]);
      multiset(s[..l] + [s[w]] + s[l..w] + s[w + 1..]);
    }
  }

  lemma MoveShape(s: seq<Rating>, w: nat, l: nat)
    requires l < w < |s|
    ensures InsertAt(RemoveAt(s, w), l, s[w]) == s[..l] + [s[w]] + s[l..w] + s[w + 1..]
  {
    var u := RemoveAt(s, w);
    assert u[..l] == s[..l];
    assert u[l..] == s[l..w] + s[w + 1..];
  }

  /** generateComparisonPairs (lines 280-313): group, pick the leading tier, pair its latest items. */
  method GenerateComparisonPairs(currentRatings: seq<Rating>) returns (pairs: seq<Pair>)
    ensures pairs == ComparisonPairs(currentRatings)
  {
    var good, ok, bad := GroupByTier(currentRatings);
    var targetTier, targetItems := PickTargetTier(currentRatings, good, ok, bad);
    if targetTier.None? {
      return [];
    }
    pairs := PushLatestPairs(targetItems);
  }

  /** The pushes of lines 305-310. */
  method PushLatestPairs(tierItems: seq<Rating>) returns (pairs: seq<Pair>)
    ensures pairs == LatestPairs(tierItems)
  {
    var len := |tierItems|;
    pairs := [];
    if len >= 2 {
      pairs := pairs + [Pair(tierItems[len - 2], tierItems[len - 1])];
    }
    if len >= 4 {
      pairs := pairs + [Pair(tierItems[len - 4], tierItems[len - 3])];
    }
  }

  /** The group loop of lines 282-285: each rating pushed onto its tier's list, in order. */
  method GroupByTier(currentRatings: seq<Rating>) returns (good: seq<Rating>, ok: seq<Rating>, bad: seq<Rating>)
    ensures good == Group(currentRatings, Good) && ok == Group(currentRatings, Ok) && bad == Group(currentRatings, Bad)
  {
    good, ok, bad := [], [], [];
    for i := 0 to |currentRatings|
      invariant good == Group(currentRatings[..i], Good)
      invariant ok == Group(currentRatings[..i], Ok)
      invariant bad == Group(currentRatings[..i], Bad)
    {
      assert currentRatings[..i + 1][..i] == currentRatings[..i];
      var r := currentRatings[i];
      match r.satisfaction
      case Good => good := good + [r];
      case Ok => ok := ok + [r];
      case Bad => bad := bad + [r];
    }
    assert currentRatings[..|currentRatings|] == currentRatings;
  }

  /** The tier loop of lines 288-296: the first tier with the strictly largest group of two or more. */
  method PickTargetTier(currentRatings: seq<Rating>, good: seq<Rating>, ok: seq<Rating>, bad: seq<Rating>)
    returns (targetTier: Option<Satisfaction>, targetItems: seq<Rating>)
    requires good == Group(currentRatings, Good) && ok == Group(currentRatings, Ok) && bad == Group(currentRatings, Bad)
    ensures targetTier == TargetTier(currentRatings)
    ensures targetTier.Some? ==> targetItems == Group(currentRatings, targetTier.value)
  {
    targetTier := None;
    targetItems := [];
    var maxCount := 0;
    for i := 0 to |TierOrder|
      invariant targetTier == Leader(currentRatings, TierOrder[..i])
      invariant maxCount == CountOf(currentRatings, targetTier)
      invariant targetTier.Some? ==> targetItems == Group(currentRatings, targetTier.value)
    {
      assert TierOrder[..i + 1][..i] == TierOrder[..i];
      var tier := TierOrder[i];
      var items := if tier == Good then good else if tier == Ok then ok else bad;
      if |items| >= 2 && |items| > maxCount {
        maxCount := |items|;
        targetTier := Some(tier);
        targetItems := items;
      }
    }
    assert TierOrder[..|TierOrder|] == TierOrder;
  }

  /** The client-side dedupe of lines 87-94: shops not seen before, first copy kept; the seen set grows. */
  function FilterSeen(response: seq<int>, seen: set<int>): (r: (seq<int>, set<int>))
    ensures r.1 == seen + set k | 0 <= k < |response| :: response[k]
    ensures forall k :: 0 <= k < |r.0| ==> r.0[k] !in seen && r.0[k] in response
    ensures forall i, j :: 0 <= i < j < |r.0| ==> r.0[i] != r.0[j]
    ensures forall k :: 0 <= k < |response| && response[k] !in seen ==> response[k] in r.0
  {
    if response == [] then ([], seen)
    else
      var n := |response| - 1;
      var (init, seen') := FilterSeen(response[..n], seen);
      assert forall k :: 0 <= k < n ==> response[..n][k] == response[k];
      assert (set k | 0 <= k < |response| :: response[k]) == (set k | 0 <= k < n :: response[..n][k]) + {response[n]};
      if response[n] in seen' then (init, seen')
      else (init + [response[n]], seen' + {response[n]})
  }

  /** The filter loop of lines 87-94, with the seen set as a value. */
  method DedupeShops(response: seq<int>, seen0: set<int>) returns (newShops: seq<int>, seen: set<int>)
    ensures (newShops, seen) == FilterSeen(response, seen0)
  {
    newShops := [];
    seen := seen0;
    for i := 0 to |response|
      invariant (newShops, seen) == FilterSeen(response[..i], seen0)
    {
      assert response[..i + 1][..i] == response[..i];
      var id := response[i];
      if id !in seen {
        seen := seen + {id};
        newShops := newShops + [id];
      }
    }
    assert response[..|response|] == response;
  }

  class RelayScreenState {
    var shops: seq<int>
    var currentIndex: nat
    var isLoading: bool
    var hasMore: bool
    var exiting: bool
    var showGuide: bool
    var locationError: bool
    var showMilestone: bool
    var showBackConfirm: bool
    var stats: Stats
    var ratings: seq<Rating>
    var comparisonMode: bool
    var comparisonQueue: seq<Pair>
    var comparisonIndex: nat
    var seenIds: set<int>
    var offset: int

    /** The initial state of lines 34-67. */
    constructor()
      ensures shops == [] && currentIndex == 0 && isLoading && hasMore && !exiting && showGuide
      ensures !locationError && !showMilestone && !showBackConfirm && stats == Stats(0, 0, 0, 0, 0) && ratings == []
      ensures !comparisonMode && comparisonQueue == [] && comparisonIndex == 0 && seenIds == {} && offset == 0
    {
      shops := [];
      currentIndex := 0;
      isLoading := true;
      hasMore := true;
      exiting := false;
      showGuide := true;
      locationError := false;
      showMilestone := false;
      showBackConfirm := false;
      stats := Stats(0, 0, 0, 0, 0);
      ratings := [];
      comparisonMode := false;
      comparisonQueue := [];
      comparisonIndex := 0;
      seenIds := {};
      offset := 0;
    }

    predicate Busy()
      reads this
    {
      exiting || showMilestone || comparisonMode
    }

    /**
     * handleSwipe (lines 126-188) up to its timeout: the rating is stored and
     * what happens after the animation is returned.
     */
    method Swipe(direction: Direction) returns (pending: Option<Pending>)
      modifies this
      ensures old(Busy()) ==> pending.None? && ratings == old(ratings) && stats == old(stats) && exiting == old(exiting)
                              && showGuide == old(showGuide)
      ensures !old(Busy()) && old(currentIndex) >= |old(shops)| ==>
                pending.None? && ratings == old(ratings) && stats == old(stats) && exiting == old(exiting) && !showGuide
      ensures !old(Busy()) && old(currentIndex) < |old(shops)| ==>
                exiting && !showGuide
                && ratings == old(ratings) + [Rating(old(shops)[old(currentIndex)], SatisfactionOf(direction))]
                && stats == Count(old(stats), SatisfactionOf(direction))
                && pending == Some(Outcome(ratings))
      ensures shops == old(shops) && currentIndex == old(currentIndex) && showMilestone == old(showMilestone)
      ensures comparisonMode == old(comparisonMode) && comparisonQueue == old(comparisonQueue)
      ensures comparisonIndex == old(comparisonIndex) && seenIds == old(seenIds) && offset == old(offset)
      ensures hasMore == old(hasMore) && isLoading == old(isLoading) && locationError == old(locationError)
      ensures showBackConfirm == old(showBackConfirm)
    {
      if exiting || showMilestone || comparisonMode {
        return None;
      }
      if showGuide {
        showGuide := false;
      }
      if currentIndex >= |shops| {
        return None;
      }
      var currentShop := shops[currentIndex];
      exiting := true;
      var satisfaction := SatisfactionOf(direction);
      stats := Count(stats, satisfaction);
      var newRatings := ratings + [Rating(currentShop, satisfaction)];
      ratings := newRatings;
      var next := DecideOutcome(newRatings);
      return Some(next);
    }

    /** handleSkip (lines 191-210): nothing is rated; the next card follows the animation. */
    method Skip() returns (pending: Option<Pending>)
      modifies this
      ensures old(Busy()) ==> pending.None? && stats == old(stats) && exiting == old(exiting) && showGuide == old(showGuide)
      ensures !old(Busy()) ==> pending == Some(MoveNext) && exiting && !showGuide
                               && stats == old(stats).(skipped := old(stats).skipped + 1)
      ensures ratings == old(ratings) && shops == old(shops) && currentIndex == old(currentIndex)
      ensures showMilestone == old(showMilestone) && comparisonMode == old(comparisonMode)
      ensures comparisonQueue == old(comparisonQueue) && comparisonIndex == old(comparisonIndex)
      ensures seenIds == old(seenIds) && offset == old(offset) && hasMore == old(hasMore)
      ensures isLoading == old(isLoading) && locationError == old(locationError)
    {
      if exiting || showMilestone || comparisonMode {
        return None;
      }
      if showGuide {
        showGuide := false;
      }
      stats := stats.(skipped := stats.skipped + 1);
      exiting := true;
      return Some(MoveNext);
    }

    /**
     * The effect of moveToNext (lines 213-234): past the last card the
     * milestone opens when nothing more can be loaded, otherwise the index
     * moves on and the next page is asked for when the end is near. Only the
     * index and the milestone flag change.
     */
    twostate predicate Advanced(new load: Option<int>)
      reads this
    {
      (old(currentIndex) + 1 >= |shops| && !hasMore ==>
         showMilestone && currentIndex == old(currentIndex) && load.None?)
      && (old(currentIndex) + 1 >= |shops| && hasMore ==>
            currentIndex == old(currentIndex) + 1 && load == Some(offset) && showMilestone == old(showMilestone))
      && (old(currentIndex) + 1 < |shops| ==>
            currentIndex == old(currentIndex) + 1 && showMilestone == old(showMilestone)
            && (load.Some? <==> old(currentIndex) + 1 >= |shops| - 5 && hasMore && !isLoading))
      && (load.Some? ==> load.value == offset)
      && shops == old(shops) && ratings == old(ratings) && hasMore == old(hasMore) && offset == old(offset)
      && comparisonMode == old(comparisonMode) && comparisonQueue == old(comparisonQueue)
      && comparisonIndex == old(comparisonIndex) && seenIds == old(seenIds) && isLoading == old(isLoading)
      && showGuide == old(showGuide) && locationError == old(locationError) && showBackConfirm == old(showBackConfirm)
    }

    /** moveToNext (lines 213-234); the offset of a page to load is returned when the screen asks for one. */
    method MoveToNext() returns (load: Option<int>)
      modifies this
      ensures Advanced(load)
      ensures exiting == old(exiting) && stats == old(stats)
    {
      var nextIndex := currentIndex + 1;
      load := None;
      if nextIndex >= |shops| {
        if hasMore {
          load := Some(offset);
          currentIndex := nextIndex;
        } else {
          showMilestone := true;
        }
      } else {
        currentIndex := nextIndex;
        if nextIndex >= |shops| - 5 && hasMore && !isLoading {
          load := Some(offset);
        }
      }
    }

    /** The timeouts of lines 162-187: the animation ends and the pending step runs. */
    method Settle(pending: Pending) returns (load: Option<int>)
      modifies this
      ensures !exiting && ratings == old(ratings) && stats == old(stats)
      ensures pending == ShowMilestone ==> showMilestone && load.None? && currentIndex == old(currentIndex)
      ensures pending.StartComparison? ==>
                comparisonMode && comparisonQueue == pending.pairs && comparisonIndex == 0 && load.None?
                && currentIndex == old(currentIndex)
      ensures pending == MoveNext ==> Advanced(load)
      ensures pending != MoveNext ==>
                shops == old(shops) && hasMore == old(hasMore) && offset == old(offset) && seenIds == old(seenIds)
                && isLoading == old(isLoading) && showGuide == old(showGuide) && locationError == old(locationError)
                && showBackConfirm == old(showBackConfirm)
      ensures pending == ShowMilestone ==>
                comparisonMode == old(comparisonMode) && comparisonQueue == old(comparisonQueue) && comparisonIndex == old(comparisonIndex)
      ensures pending.StartComparison? ==> showMilestone == old(showMilestone)
    {
      exiting := false;
      load := None;
      match pending
      case ShowMilestone =>
        showMilestone := true;
      case StartComparison(pairs) =>
        comparisonQueue := pairs;
        comparisonIndex := 0;
        comparisonMode := true;
      case MoveNext =>
        load := MoveToNext();
    }

    /** Everything outside the ratings and the comparison fields is as it was. */
    twostate predicate CardsUnchanged()
      reads this
    {
      shops == old(shops) && currentIndex == old(currentIndex) && isLoading == old(isLoading)
      && hasMore == old(hasMore) && exiting == old(exiting) && showGuide == old(showGuide)
      && locationError == old(locationError) && showMilestone == old(showMilestone)
      && showBackConfirm == old(showBackConfirm) && stats == old(stats) && seenIds == old(seenIds)
      && offset == old(offset)
    }

    /** exitComparisonMode (lines 353-357). */
    method ExitComparisonMode()
      modifies this
      ensures !comparisonMode && comparisonQueue == [] && comparisonIndex == 0
      ensures ratings == old(ratings) && CardsUnchanged()
    {
      comparisonMode := false;
      comparisonQueue := [];
      comparisonIndex := 0;
    }

    /** handleComparisonSelect (lines 316-340). */
    method ComparisonSelect(winnerId: int)
      requires comparisonIndex < |comparisonQueue|
      modifies this
      ensures ratings == Reordered(old(ratings), winnerId, old(comparisonQueue)[old(comparisonIndex)])
      ensures old(comparisonIndex) + 1 < |old(comparisonQueue)| ==>
                comparisonIndex == old(comparisonIndex) + 1 && comparisonQueue == old(comparisonQueue) && comparisonMode == old(comparisonMode)
      ensures old(comparisonIndex) + 1 >= |old(comparisonQueue)| ==> !comparisonMode && comparisonQueue == [] && comparisonIndex == 0
      ensures CardsUnchanged()
    {
      ratings := Reordered(ratings, winnerId, comparisonQueue[comparisonIndex]);
      var nextIndex := comparisonIndex + 1;
      if nextIndex < |comparisonQueue| {
        comparisonIndex := nextIndex;
      } else {
        ExitComparisonMode();
      }
    }

    /** handleComparisonSkip (lines 343-350): the ratings are left as they are. */
    method ComparisonSkip()
      modifies this
      ensures ratings == old(ratings)
      ensures old(comparisonIndex) + 1 < |old(comparisonQueue)| ==>
                comparisonIndex == old(comparisonIndex) + 1 && comparisonQueue == old(comparisonQueue) && comparisonMode == old(comparisonMode)
      ensures old(comparisonIndex) + 1 >= |old(comparisonQueue)| ==> !comparisonMode && comparisonQueue == [] && comparisonIndex == 0
      ensures CardsUnchanged()
    {
      var nextIndex := comparisonIndex + 1;
      if nextIndex < |comparisonQueue| {
        comparisonIndex := nextIndex;
      } else {
        ExitComparisonMode();
      }
    }

    /**
     * loadShops (lines 70-114) once the response has arrived: unseen shops are
     * kept (or replace the list on the first page), and the offset moves on by
     * the raw response length.
     */
    method LoadShops(hasLocation: bool, pageOffset: int, response: seq<int>, responseHasMore: bool)
      modifies this
      ensures !hasLocation ==> locationError && !isLoading && shops == old(shops) && seenIds == old(seenIds) && offset == old(offset)
      ensures hasLocation ==>
                var (newShops, seen) := FilterSeen(response, old(seenIds));
                seenIds == seen
                && shops == (if pageOffset == 0 then newShops else old(shops) + newShops)
                && offset == pageOffset + |response| && hasMore == responseHasMore && !isLoading
      ensures ratings == old(ratings) && currentIndex == old(currentIndex)
    {
      if !hasLocation {
        locationError := true;
        isLoading := false;
        return;
      }
      var newShops, seen := DedupeShops(response, seenIds);
      seenIds := seen;
      if pageOffset == 0 {
        shops := newShops;
      } else {
        shops := shops + newShops;
      }
      offset := pageOffset + |response|;
      hasMore := responseHasMore;
      isLoading := false;
    }
    /** The mount effect of lines 117-123: a new session forgets the seen shops and loads page 0. */
    method StartSession() returns (load: int)
      modifies this
      ensures seenIds == {} && offset == 0 && load == 0
      ensures shops == old(shops) && ratings == old(ratings) && currentIndex == old(currentIndex)
    {
      seenIds := {};
      offset := 0;
      load := 0;
    }

    /** handleComplete (lines 237-243): with no ratings the screen is left, otherwise the milestone dialog opens. */
    method Complete() returns (leave: bool)
      modifies this
      ensures leave <==> old(ratings) == []
      ensures showMilestone == (old(showMilestone) || old(ratings) != [])
      ensures ratings == old(ratings) && shops == old(shops) && currentIndex == old(currentIndex)
    {
      if |ratings| == 0 {
        return true;
      }
      showMilestone := true;
      return false;
    }

    /** handleBack (lines 246-252): ratings in hand ask for confirmation, otherwise the screen is left. */
    method Back() returns (leave: bool)
      modifies this
      ensures leave <==> old(ratings) == []
      ensures showBackConfirm == (old(showBackConfirm) || old(ratings) != [])
      ensures ratings == old(ratings) && showMilestone == old(showMilestone)
    {
      if |ratings| > 0 {
        showBackConfirm := true;
        return false;
      }
      return true;
    }

    /** confirmBack (lines 255-258): the dialog closes and the ratings are discarded with the screen. */
    method ConfirmBack()
      modifies this
      ensures !showBackConfirm && ratings == old(ratings) && showMilestone == old(showMilestone)
    {
      showBackConfirm := false;
    }

    /** saveAndNavigate (lines 262-270): the dialog closes and the ratings go to the ranking screen unsaved. */
    method SaveAndNavigate() returns (newRatings: seq<Rating>)
      modifies this
      ensures !showMilestone && newRatings == ratings && ratings == old(ratings)
    {
      showMilestone := false;
      newRatings := ratings;
    }

    /** continueAfterMilestone (lines 273-277): the dialog closes and the next card follows. */
    method ContinueAfterMilestone() returns (load: Option<int>)
      modifies this
      ensures old(currentIndex) + 1 >= |shops| && !hasMore ==> showMilestone && currentIndex == old(currentIndex) && load.None?
      ensures old(currentIndex) + 1 >= |shops| && hasMore ==> !showMilestone && currentIndex == old(currentIndex) + 1 && load == Some(offset)
      ensures old(currentIndex) + 1 < |shops| ==> !showMilestone && currentIndex == old(currentIndex) + 1
      ensures shops == old(shops) && ratings == old(ratings)
    {
      showMilestone := false;
      load := MoveToNext();
    }
  }
}
