/**
 * server/scripts/redistribute_users_content_fast.ts, step 3: the rankings of
 * every user from 191 to 1318 are rebuilt from their reviews. One candidate
 * per shop is kept (the latest visit), the candidates are sorted by tier
 * then visit date, both descending, and ranked 1..N. A user left without
 * candidates has their rankings deleted.
 */
module RedistributeFast {
  import opened Wrappers
  import opened Sorting
  import Text
  import DC = DistributeContent
  import RankingStore

  const StartId := 191
  const EndId := 1318

  /** mapSatisfactionToTier (lines 7-15): good and anything unknown are tier 2. */
  function MapSatisfactionToTier(satisfaction: string): (tier: int)
    ensures 0 <= tier <= 3
    ensures tier == 3 <==> satisfaction == "best"
    ensures tier == 1 <==> satisfaction == "ok"
    ensures tier == 0 <==> satisfaction == "bad"
  {
    match satisfaction
    case "best" => 3
    case "good" => 2
    case "ok" => 1
    case "bad" => 0
    case _ => 2
  }

  /** The parts of review_prop the script reads; a shop id of 0 is falsy like an absent one. */
  datatype ReviewProp = ReviewProp(shopId: Option<int>, visitDate: Option<int>, satisfaction: string)

  /** A content row of the user: its type, its review_prop and its created_at (milliseconds). */
  datatype Review = Review(kind: string, prop: Option<ReviewProp>, createdAt: Option<int>)

  predicate IsCandidate(r: Review)
  {
    r.kind == "review" && r.prop.Some? && r.prop.value.shopId.Some? && r.prop.value.shopId.value != 0
  }

  /** The date of lines 106-112: visit_date, else created_at, else the epoch. */
  function VisitDate(r: Review): (d: int)
    requires r.prop.Some?
    ensures r.prop.value.visitDate.Some? ==> d == r.prop.value.visitDate.value
    ensures r.prop.value.visitDate.None? && r.createdAt.Some? ==> d == r.createdAt.value
    ensures r.prop.value.visitDate.None? && r.createdAt.None? ==> d == 0
  {
    if r.prop.value.visitDate.Some? then r.prop.value.visitDate.value
    else if r.createdAt.Some? then r.createdAt.value
    else 0
  }

  /** The candidate a review contributes (lines 101-121), if any. */
  function CandidateOf(userId: int, r: Review): (c: Option<DC.Entry>)
    ensures c.Some? <==> IsCandidate(r)
    ensures c.Some? ==> c.value.userId == userId && c.value.shopId == r.prop.value.shopId.value
                        && c.value.visitDate == VisitDate(r)
                        && c.value.tier == MapSatisfactionToTier(Text.OrElse(r.prop.value.satisfaction, "good"))
  {
    if !IsCandidate(r) then None
    else
      var prop := r.prop.value;
      Some(DC.Entry(userId, prop.shopId.value, VisitDate(r), MapSatisfactionToTier(Text.OrElse(prop.satisfaction, "good"))))
  }

  /** The candidates of the reviews in order, before the one-per-shop rule. */
  function CandidateEntries(userId: int, reviews: seq<Review>): (c: seq<DC.Entry>)
    ensures |c| <= |reviews|
    ensures c == [] <==> forall i :: 0 <= i < |reviews| ==> !IsCandidate(reviews[i])
  {
    if reviews == [] then []
    else
      var n := |reviews| - 1;
      var init := CandidateEntries(userId, reviews[..n]);
      assert forall i :: 0 <= i < n ==> reviews[..n][i] == reviews[i];
      match CandidateOf(userId, reviews[n])
      case None => init
      case Some(e) => init + [e]
  }

  /** The comparator of lines 144-149 as "may come first": higher tier, then later visit. */
  function ByTierThenDate(a: DC.Entry, b: DC.Entry): bool
  {
    a.tier > b.tier || (a.tier == b.tier && a.visitDate >= b.visitDate)
  }

  lemma ByTierThenDateTotal()
    ensures TotalPreorder(ByTierThenDate)
  {
  }

  function ShopOf(e: DC.Entry): int
  {
    e.shopId
  }

  /** Lines 151-156: continuous ranks from 1 in list order. */
  function RankAll(userId: int, sorted: seq<DC.Entry>): (r: seq<DC.Ranking>)
    ensures |r| == |sorted|
    ensures forall k :: 0 <= k < |r| ==> r[k] == DC.Ranking(userId, sorted[k].shopId, k + 1, sorted[k].tier)
  {
    seq(|sorted|, k requires 0 <= k < |sorted| => DC.Ranking(userId, sorted[k].shopId, k + 1, sorted[k].tier))
  }

  function SortedCandidates(userId: int, reviews: seq<Review>): seq<DC.Entry>
  {
    SortBy(DC.DedupeLatest(CandidateEntries(userId, reviews)), ByTierThenDate)
  }

  /** The rows the user is left with: the new rankings, or none when they were deleted. */
  function NewRankings(userId: int, reviews: seq<Review>): (r: seq<DC.Ranking>)
    ensures forall k :: 0 <= k < |r| ==> r[k].userId == userId && r[k].rank == k + 1
  {
    RankAll(userId, SortedCandidates(userId, reviews))
  }

  /** The body of the per-user loop (lines 86-168). */
  method RecalcUser(userId: int, reviews: seq<Review>) returns (newRankings: seq<DC.Ranking>)
    ensures newRankings == NewRankings(userId, reviews)
  {
    if |reviews| == 0 {
      assert CandidateEntries(userId, reviews) == [];
      return [];
    }
    var candidates := CollectCandidates(userId, reviews);
    if |candidates| == 0 {
      return [];
    }
    var sorted := SortBy(candidates, ByTierThenDate);
    newRankings := RankRows(userId, sorted);
  }

  /** The map of lines 151-156. */
  method RankRows(userId: int, sorted: seq<DC.Entry>) returns (rows: seq<DC.Ranking>)
    ensures rows == RankAll(userId, sorted)
  {
    rows := [];
    for k := 0 to |sorted|
      invariant |rows| == k
      invariant forall j :: 0 <= j < k ==> rows[j] == DC.Ranking(userId, sorted[j].shopId, j + 1, sorted[j].tier)
    {
      rows := rows + [DC.Ranking(userId, sorted[k].shopId, k + 1, sorted[k].tier)];
    }
  }

  /** The rankingCandidates map of lines 98-133, as its values in insertion order. */
  method CollectCandidates(userId: int, reviews: seq<Review>) returns (candidates: seq<DC.Entry>)
    ensures candidates == DC.DedupeLatest(CandidateEntries(userId, reviews))
  {
    candidates := [];
    for i := 0 to |reviews|
      invariant candidates == DC.DedupeLatest(CandidateEntries(userId, reviews[..i]))
    {
      assert reviews[..i + 1][..i] == reviews[..i];
      var r := reviews[i];
      if IsCandidate(r) {
        var entry := CandidateOf(userId, r).value;
        CandidateEntriesSnoc(userId, reviews, i);
        DC.DedupeSnoc(CandidateEntries(userId, reviews[..i]), entry);
        candidates := PutCandidate(candidates, entry);
      } else {
        CandidateEntriesSnoc(userId, reviews, i);
      }
    }
    assert reviews[..|reviews|] == reviews;
  }

  /** Lines 114-132: a new shop is added; a known one is replaced only by a strictly later visit. */
  method PutCandidate(candidates: seq<DC.Entry>, entry: DC.Entry) returns (next: seq<DC.Entry>)
    ensures next == DC.KeepLatest(candidates, entry)
  {
    next := candidates;
    var existing := DC.IndexOfShop(candidates, entry.shopId);
    if existing.None? {
      next := candidates + [entry];
    } else if entry.visitDate > candidates[existing.value].visitDate {
      next := candidates[existing.value := entry];
    }
  }

  lemma CandidateEntriesSnoc(userId: int, reviews: seq<Review>, i: nat)
    requires i < |reviews|
    ensures IsCandidate(reviews[i]) ==>
              CandidateEntries(userId, reviews[..i + 1]) == CandidateEntries(userId, reviews[..i]) + [CandidateOf(userId, reviews[i]).value]
    ensures !IsCandidate(reviews[i]) ==> CandidateEntries(userId, reviews[..i + 1]) == CandidateEntries(userId, reviews[..i])
  {
    assert reviews[..i + 1][..i] == reviews[..i];
  }

  /** The ranks are exactly 1..N, tiers never increase along them, and no shop is ranked twice. */
  lemma NewRankingsSpec(userId: int, reviews: seq<Review>)
    ensures var r := NewRankings(userId, reviews);
            (forall k :: 0 <= k < |r| ==> r[k].rank == k + 1 && r[k].userId == userId)
            && (forall i, j :: 0 <= i < j < |r| ==> r[i].tier >= r[j].tier && r[i].shopId != r[j].shopId)
  {
    var uniq := DC.DedupeLatest(CandidateEntries(userId, reviews));
    ByTierThenDateTotal();
    SortBySorted(uniq, ByTierThenDate);
    DC.DedupeOnePerShop(CandidateEntries(userId, reviews));
    assert DistinctBy(uniq, ShopOf);
    SortByDistinct(uniq, ByTierThenDate, ShopOf);
  }

  /** Within one tier the later visit comes first. */
  lemma NewRankingsDateOrder(userId: int, reviews: seq<Review>)
    ensures var s := SortedCandidates(userId, reviews);
            forall i, j :: 0 <= i < j < |s| && s[i].tier == s[j].tier ==> s[i].visitDate >= s[j].visitDate
  {
    ByTierThenDateTotal();
    SortBySorted(DC.DedupeLatest(CandidateEntries(userId, reviews)), ByTierThenDate);
  }

  /** The user's rankings are deleted exactly when no review is a ranking candidate. */
  lemma NewRankingsEmpty(userId: int, reviews: seq<Review>)
    ensures NewRankings(userId, reviews) == [] <==> forall i :: 0 <= i < |reviews| ==> !IsCandidate(reviews[i])
  {
    var c := CandidateEntries(userId, reviews);
    if c != [] {
      assert |DC.DedupeLatest(c)| >= 1;
    }
  }

  /**
   * Lines 80-172: every target user's rows are replaced by the rankings of
   * their reviews after redistribution, given here as reviewsOf.
   */
  method Recalculate(table: RankingStore.RankingTable, reviewsOf: int -> seq<Review>)
    modifies table
    ensures Recalculated(table.byUser, old(table.byUser), EndId + 1, reviewsOf)
  {
    var userId := StartId;
    while userId <= EndId
      invariant StartId <= userId <= EndId + 1
      invariant Recalculated(table.byUser, old(table.byUser), userId, reviewsOf)
    {
      var rows := RecalcUser(userId, reviewsOf(userId));
      RecalculatedStep(table.byUser, old(table.byUser), userId, reviewsOf);
      table.byUser := table.byUser[userId := rows];
      userId := userId + 1;
    }
  }

  /**
   * The table m after users StartId .. upTo - 1 were recalculated from m0:
   * each of them holds its new rankings, and every user outside that range
   * keeps what it had.
   */
  ghost predicate Recalculated(m: map<int, seq<DC.Ranking>>, m0: map<int, seq<DC.Ranking>>, upTo: int, reviewsOf: int -> seq<Review>)
  {
    (forall u :: StartId <= u < upTo ==> u in m && m[u] == NewRankings(u, reviewsOf(u)))
    && (forall u :: (u < StartId || upTo <= u) ==> (u in m <==> u in m0) && (u in m ==> m[u] == m0[u]))
  }

  /** Recalculating the next user keeps Recalculated. */
  lemma RecalculatedStep(m: map<int, seq<DC.Ranking>>, m0: map<int, seq<DC.Ranking>>, userId: int, reviewsOf: int -> seq<Review>)
    requires StartId <= userId
    requires Recalculated(m, m0, userId, reviewsOf)
    ensures Recalculated(m[userId := NewRankings(userId, reviewsOf(userId))], m0, userId + 1, reviewsOf)
  {
    var m2 := m[userId := NewRankings(userId, reviewsOf(userId))];
    forall u | StartId <= u < userId + 1
      ensures u in m2 && m2[u] == NewRankings(u, reviewsOf(u))
    {
      if u != userId {
        assert m2[u] == m[u];
      }
    }
    forall u | u < StartId || userId + 1 <= u
      ensures (u in m2 <==> u in m0) && (u in m2 ==> m2[u] == m0[u])
    {
      assert u != userId;
    }
  }

}
