/**
 * src/screens/onboarding/OnboardingRanking.tsx: the onboarding ratings are
 * shown as one draggable list, a header per tier followed by that tier's
 * shops; saving walks the (possibly rearranged) list and derives each shop's
 * tier from the header above it and its rank from its position.
 */
module OnboardingRanking {
  import opened Wrappers
  import OC = OnboardingContext

  /** FlattenedItem (lines 11-13); names and pictures are left out. */
  datatype FlatItem = Header(tier: int) | Item(shopId: int, tier: int)

  /** The two payloads of lines 74-75. */
  datatype BatchItem = BatchItem(shopId: int, satisfaction: OC.Satisfaction)
  datatype ReorderItem = ReorderItem(shopId: int, rank: int, tier: int)

  /** The satisfaction of line 83: good, ok, and bad for any other tier. */
  function SatisfactionOf(tier: int): (s: OC.Satisfaction)
    ensures s == OC.Good <==> tier == 2
    ensures s == OC.Ok <==> tier == 1
    ensures s == OC.Bad <==> tier != 2 && tier != 1
  {
    if tier == 2 then OC.Good else if tier == 1 then OC.Ok else OC.Bad
  }

  function TierOf(s: OC.Satisfaction): int
  {
    match s
    case Good => 2
    case Ok => 1
    case Bad => 0
  }

  /** `ratings.filter(r => r.satisfaction === s)` of lines 28-30. */
  function OfSatisfaction(ratings: seq<OC.Rating>, s: OC.Satisfaction): (r: seq<OC.Rating>)
    ensures |r| <= |ratings|
    ensures forall k :: 0 <= k < |r| ==> r[k].satisfaction == s && r[k] in ratings
  {
    if ratings == [] then []
    else
      var n := |ratings| - 1;
      var init := OfSatisfaction(ratings[..n], s);
      assert forall k :: 0 <= k < |init| ==> init[k] in ratings;
      if ratings[n].satisfaction == s then init + [ratings[n]] else init
  }

  /** The three filters split the ratings: every rating lands in exactly one of them. */
  lemma {:induction false} SatisfactionsPartition(ratings: seq<OC.Rating>)
    ensures |OfSatisfaction(ratings, OC.Good)| + |OfSatisfaction(ratings, OC.Ok)| + |OfSatisfaction(ratings, OC.Bad)| == |ratings|
  {
    if ratings != [] {
      SatisfactionsPartition(ratings[..|ratings| - 1]);
    }
  }

  function Items(ratings: seq<OC.Rating>, tier: int): (r: seq<FlatItem>)
    ensures |r| == |ratings|
    ensures forall k :: 0 <= k < |r| ==> r[k] == Item(ratings[k].shopId, tier)
  {
    seq(|ratings|, k requires 0 <= k < |ratings| => Item(ratings[k].shopId, tier))
  }

  /** One header and the shops of its tier (lines 34-65). */
  function Section(ratings: seq<OC.Rating>, s: OC.Satisfaction): seq<FlatItem>
  {
    [Header(TierOf(s))] + Items(OfSatisfaction(ratings, s), TierOf(s))
  }

  /** The effect of lines 22-68: no list for no ratings (the screen redirects), else good, ok, bad sections. */
  function BuildFlatList(ratings: seq<OC.Rating>): (r: Option<seq<FlatItem>>)
    ensures r.None? <==> ratings == []
    ensures r.Some? ==> |r.value| == |ratings| + 3 && r.value[0] == Header(TierOf(OC.Good))
  {
    SatisfactionsPartition(ratings);
    if |ratings| == 0 then None
    else Some(Section(ratings, OC.Good) + Section(ratings, OC.Ok) + Section(ratings, OC.Bad))
  }

  /** The state of the forEach of lines 79-91: the current tier and the two payloads so far. */
  datatype Acc = Acc(tier: int, batch: seq<BatchItem>, reorder: seq<ReorderItem>)

  function Visit(acc: Acc, item: FlatItem): Acc
  {
    match item
    case Header(tier) => acc.(tier := tier)
    case Item(shopId, _) =>
      Acc(acc.tier, acc.batch + [BatchItem(shopId, SatisfactionOf(acc.tier))],
          acc.reorder + [ReorderItem(shopId, |acc.reorder| + 1, acc.tier)])
  }

  function Scan(acc: Acc, list: seq<FlatItem>): Acc
  {
    if list == [] then acc else Visit(Scan(acc, list[..|list| - 1]), list[|list| - 1])
  }

  /** The walk starts in tier 2 with rank 1 (lines 76-77). */
  const Start := Acc(2, [], [])

  /** Scanning a concatenation scans the second part from where the first left off. */
  lemma {:induction false} ScanAppend(acc: Acc, a: seq<FlatItem>, b: seq<FlatItem>)
    ensures Scan(acc, a + b) == Scan(Scan(acc, a), b)
  {
    if b != [] {
      var n := |b| - 1;
      assert (a + b)[..|a + b| - 1] == a + b[..n];
      ScanAppend(acc, a, b[..n]);
      assert (a + b)[|a + b| - 1] == b[n];
    } else {
      assert a + b == a;
    }
  }

  /** The payload entries for shops `rs` of one tier, ranked after `before` earlier entries. */
  function BatchFor(rs: seq<OC.Rating>, tier: int): (r: seq<BatchItem>)
    ensures |r| == |rs|
  {
    seq(|rs|, k requires 0 <= k < |rs| => BatchItem(rs[k].shopId, SatisfactionOf(tier)))
  }

  function ReorderFor(rs: seq<OC.Rating>, before: nat, tier: int): (r: seq<ReorderItem>)
    ensures |r| == |rs|
  {
    seq(|rs|, k requires 0 <= k < |rs| => ReorderItem(rs[k].shopId, before + k + 1, tier))
  }

  lemma {:induction false} ScanSection(acc: Acc, rs: seq<OC.Rating>, tier: int)
    ensures Scan(acc.(tier := tier), Items(rs, tier))
            == Acc(tier, acc.batch + BatchFor(rs, tier), acc.reorder + ReorderFor(rs, |acc.reorder|, tier))
  {
    if rs != [] {
      var n := |rs| - 1;
      assert Items(rs, tier)[..n] == Items(rs[..n], tier);
      ScanSection(acc, rs[..n], tier);
      assert BatchFor(rs, tier) == BatchFor(rs[..n], tier) + [BatchItem(rs[n].shopId, SatisfactionOf(tier))];
      assert ReorderFor(rs, |acc.reorder|, tier)
             == ReorderFor(rs[..n], |acc.reorder|, tier) + [ReorderItem(rs[n].shopId, |acc.reorder| + n + 1, tier)];
    }
  }

  lemma SectionScan(acc: Acc, rs: seq<OC.Rating>, tier: int)
    ensures Scan(acc, [Header(tier)] + Items(rs, tier))
            == Acc(tier, acc.batch + BatchFor(rs, tier), acc.reorder + ReorderFor(rs, |acc.reorder|, tier))
  {
    ScanAppend(acc, [Header(tier)], Items(rs, tier));
    assert [Header(tier)][..0] == [];
    ScanSection(acc, rs, tier);
  }

  /**
   * Saving the list as built, before any drag, sends the good, then ok, then
   * bad ratings, each with its own satisfaction, ranked 1..n in that order.
   */
  lemma SaveAsBuilt(ratings: seq<OC.Rating>)
    requires ratings != []
    ensures var r := Scan(Start, BuildFlatList(ratings).value);
            var g, o, b := OfSatisfaction(ratings, OC.Good), OfSatisfaction(ratings, OC.Ok), OfSatisfaction(ratings, OC.Bad);
            r.batch == BatchFor(g, 2) + BatchFor(o, 1) + BatchFor(b, 0)
            && r.reorder == ReorderFor(g, 0, 2) + ReorderFor(o, |g|, 1) + ReorderFor(b, |g| + |o|, 0)
  {
    var g, o, b := OfSatisfaction(ratings, OC.Good), OfSatisfaction(ratings, OC.Ok), OfSatisfaction(ratings, OC.Bad);
    ScanThreeSections(BuildFlatList(ratings).value, g, o, b);
  }

  /** The walk over three sections headed 2, 1 and 0. */
  lemma ScanThreeSections(list: seq<FlatItem>, g: seq<OC.Rating>, o: seq<OC.Rating>, b: seq<OC.Rating>)
    requires list == ([Header(2)] + Items(g, 2)) + ([Header(1)] + Items(o, 1)) + ([Header(0)] + Items(b, 0))
    ensures var r := Scan(Start, list);
            r.batch == BatchFor(g, 2) + BatchFor(o, 1) + BatchFor(b, 0)
            && r.reorder == ReorderFor(g, 0, 2) + ReorderFor(o, |g|, 1) + ReorderFor(b, |g| + |o|, 0)
  {
    var a1 := Acc(2, BatchFor(g, 2), ReorderFor(g, 0, 2));
    var a2 := Acc(1, a1.batch + BatchFor(o, 1), a1.reorder + ReorderFor(o, |g|, 1));
    var a3 := Acc(0, a2.batch + BatchFor(b, 0), a2.reorder + ReorderFor(b, |g| + |o|, 0));
    assert Scan(Start, [Header(2)] + Items(g, 2)) == a1 by {
      SectionScan(Start, g, 2);
      assert [] + BatchFor(g, 2) == BatchFor(g, 2);
      assert [] + ReorderFor(g, 0, 2) == ReorderFor(g, 0, 2);
    }
    SectionScan(a1, o, 1);
    SectionScan(a2, b, 0);
    ScanThree(Start, [Header(2)] + Items(g, 2), [Header(1)] + Items(o, 1), [Header(0)] + Items(b, 0), a1, a2, a3);
  }

  lemma ScanThree(acc: Acc, a: seq<FlatItem>, b: seq<FlatItem>, c: seq<FlatItem>, a1: Acc, a2: Acc, a3: Acc)
    requires Scan(acc, a) == a1 && Scan(a1, b) == a2 && Scan(a2, c) == a3
    ensures Scan(acc, a + b + c) == a3
  {
    ScanAppend(acc, a + b, c);
    ScanAppend(acc, a, b);
  }

  /**
   * For any list, rearranged or not: the two payloads have the same length
   * and the same shops in the same order, the ranks are 1..k, and the
   * satisfaction matches the tier (good, ok, bad for 2, 1, other).
   */
  lemma {:induction false} PayloadsAgree(list: seq<FlatItem>)
    ensures var r := Scan(Start, list);
            |r.batch| == |r.reorder|
            && forall k :: 0 <= k < |r.batch| ==>
                 r.batch[k].shopId == r.reorder[k].shopId && r.reorder[k].rank == k + 1
                 && r.batch[k].satisfaction == SatisfactionOf(r.reorder[k].tier)
  {
    if list != [] {
      PayloadsAgree(list[..|list| - 1]);
    }
  }

  /** The tier of the nearest header above the end of `list`, or 2 if there is none. */
  function TierAbove(list: seq<FlatItem>): int
  {
    if list == [] then 2
    else if list[|list| - 1].Header? then list[|list| - 1].tier
    else TierAbove(list[..|list| - 1])
  }

  /** The shop items of the list, in order. */
  function ShopIds(list: seq<FlatItem>): seq<int>
  {
    if list == [] then []
    else if list[|list| - 1].Item? then ShopIds(list[..|list| - 1]) + [list[|list| - 1].shopId]
    else ShopIds(list[..|list| - 1])
  }

  /**
   * The payload holds exactly the shop items, in list order, and each item
   * ends up with the tier of the nearest header above it.
   */
  lemma {:induction false} PayloadFollowsList(list: seq<FlatItem>)
    ensures var r := Scan(Start, list);
            r.tier == TierAbove(list)
            && |r.reorder| == |ShopIds(list)|
            && (forall k :: 0 <= k < |r.reorder| ==> r.reorder[k].shopId == ShopIds(list)[k])
            && (forall i :: 0 <= i < |list| && list[i].Item? ==>
                  exists k :: 0 <= k < |r.reorder| && r.reorder[k] == ReorderItem(list[i].shopId, k + 1, TierAbove(list[..i])))
  {
    if list != [] {
      var n := |list| - 1;
      var r0 := Scan(Start, list[..n]);
      var r := Scan(Start, list);
      PayloadFollowsList(list[..n]);
      forall i | 0 <= i < |list| && list[i].Item?
        ensures exists k :: 0 <= k < |r.reorder| && r.reorder[k] == ReorderItem(list[i].shopId, k + 1, TierAbove(list[..i]))
      {
        if i < n {
          assert list[..n][i] == list[i] && list[..n][..i] == list[..i];
          var k :| 0 <= k < |r0.reorder| && r0.reorder[k] == ReorderItem(list[i].shopId, k + 1, TierAbove(list[..i]));
          assert r.reorder[k] == r0.reorder[k];
        } else {
          assert list[..i] == list[..n];
          assert r.reorder[|r0.reorder|] == ReorderItem(list[i].shopId, |r0.reorder| + 1, TierAbove(list[..i]));
        }
      }
    }
  }

  /** handleSave's walk over the list (lines 74-91). */
  method BuildPayloads(flatList: seq<FlatItem>) returns (batchItems: seq<BatchItem>, reorderPayload: seq<ReorderItem>)
    ensures batchItems == Scan(Start, flatList).batch && reorderPayload == Scan(Start, flatList).reorder
  {
    batchItems := [];
    reorderPayload := [];
    var rankCounter := 1;
    var currentTier := 2;
    for i := 0 to |flatList|
      invariant Acc(currentTier, batchItems, reorderPayload) == Scan(Start, flatList[..i])
      invariant rankCounter == |reorderPayload| + 1
    {
      assert flatList[..i + 1][..i] == flatList[..i];
      var item := flatList[i];
      if item.Header? {
        currentTier := item.tier;
      } else {
        var satisfaction := if currentTier == 2 then OC.Good else if currentTier == 1 then OC.Ok else OC.Bad;
        batchItems := batchItems + [BatchItem(item.shopId, satisfaction)];
        reorderPayload := reorderPayload + [ReorderItem(item.shopId, rankCounter, currentTier)];
        rankCounter := rankCounter + 1;
      }
    }
    assert flatList[..|flatList|] == flatList;
  }

  /** The requests handleSave sends (lines 93-101): none when the payload is empty. */
  datatype Save = Save(batchSent: Option<seq<BatchItem>>, reorderSent: Option<seq<ReorderItem>>)

  method HandleSave(flatList: seq<FlatItem>) returns (save: Save)
    ensures var r := Scan(Start, flatList);
            save.batchSent == (if |r.batch| > 0 then Some(r.batch) else None)
            && save.reorderSent == (if |r.reorder| > 0 then Some(r.reorder) else None)
  {
    var batchItems, reorderPayload := BuildPayloads(flatList);
    var b: Option<seq<BatchItem>> := None;
    var r: Option<seq<ReorderItem>> := None;
    if |batchItems| > 0 {
      b := Some(batchItems);
    }
    if |reorderPayload| > 0 {
      r := Some(reorderPayload);
    }
    return Save(b, r);
  }
}
