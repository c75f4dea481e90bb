/**
 * server/scripts/recalc_ranking.ts: the rankings of users 191 to 318 are
 * rebuilt from their live reviews, newest first. The first review of each
 * shop wins; shops are grouped by tier and ranked with one global counter,
 * tier 3 first, most recent visit first within a tier.
 */
module RecalcRanking {
  import opened Wrappers
  import opened Sorting
  import Text
  import DC = DistributeContent
  import RF = RedistributeFast
  import RankingStore

  const FirstUser := 191
  const LastUser := 318

  /** A content row as the query of lines 31-45 reads it; created_at is in milliseconds. */
  datatype ContentRow = ContentRow(userId: int, kind: string, isDeleted: bool, prop: Option<RF.ReviewProp>, createdAt: int)

  /** The filter of lines 38-44. */
  predicate IsLiveReview(userId: int, row: ContentRow)
  {
    row.userId == userId && row.kind == "review" && !row.isDeleted
  }

  function LiveReviews(userId: int, rows: seq<ContentRow>): (r: seq<ContentRow>)
    ensures forall k :: 0 <= k < |r| ==> IsLiveReview(userId, r[k]) && r[k] in rows
    ensures forall k :: 0 <= k < |rows| && IsLiveReview(userId, rows[k]) ==> rows[k] in r
  {
    if rows == [] then []
    else
      var n := |rows| - 1;
      var init := LiveReviews(userId, rows[..n]);
      assert forall k :: 0 <= k < n ==> rows[..n][k] == rows[k];
      if IsLiveReview(userId, rows[n]) then init + [rows[n]] else init
  }

  /** orderBy(desc(created_at)) as "may come first". */
  function ByCreatedDesc(a: ContentRow, b: ContentRow): bool
  {
    a.createdAt >= b.createdAt
  }

  /** The user's reviews in the order the query returns them. */
  function Reviews(userId: int, rows: seq<ContentRow>): seq<ContentRow>
  {
    SortBy(LiveReviews(userId, rows), ByCreatedDesc)
  }

  lemma ReviewsNewestFirst(userId: int, rows: seq<ContentRow>)
    ensures var r := Reviews(userId, rows);
            forall i, j :: 0 <= i < j < |r| ==> r[i].createdAt >= r[j].createdAt
  {
    SortBySorted(LiveReviews(userId, rows), ByCreatedDesc);
  }

  predicate HasShop(row: ContentRow)
  {
    row.prop.Some? && row.prop.value.shopId.Some? && row.prop.value.shopId.value != 0
  }

  /** The candidate of one review (lines 53-72); the satisfaction is kept as its tier. */
  function CandidateOf(userId: int, row: ContentRow): (c: Option<DC.Entry>)
    ensures c.Some? <==> HasShop(row)
    ensures c.Some? && row.prop.value.visitDate.Some? ==> c.value.visitDate == row.prop.value.visitDate.value
    ensures c.Some? && row.prop.value.visitDate.None? ==> c.value.visitDate == row.createdAt
    ensures c.Some? ==> c.value.shopId == row.prop.value.shopId.value
                        && c.value.tier == RF.MapSatisfactionToTier(Text.OrElse(row.prop.value.satisfaction, "good"))
  {
    if !HasShop(row) then None
    else
      var prop := row.prop.value;
      var date := if prop.visitDate.Some? then prop.visitDate.value else row.createdAt;
      Some(DC.Entry(userId, prop.shopId.value, date, RF.MapSatisfactionToTier(Text.OrElse(prop.satisfaction, "good"))))
  }

  function Candidates(userId: int, reviews: seq<ContentRow>): (c: seq<DC.Entry>)
    ensures |c| <= |reviews|
    ensures forall k :: 0 <= k < |c| ==> 0 <= c[k].tier <= 3
  {
    if reviews == [] then []
    else
      var n := |reviews| - 1;
      var init := Candidates(userId, reviews[..n]);
      match CandidateOf(userId, reviews[n])
      case None => init
      case Some(e) => init + [e]
  }

  lemma CandidatesSnoc(userId: int, reviews: seq<ContentRow>, i: nat)
    requires i < |reviews|
    ensures HasShop(reviews[i]) ==>
              Candidates(userId, reviews[..i + 1]) == Candidates(userId, reviews[..i]) + [CandidateOf(userId, reviews[i]).value]
    ensures !HasShop(reviews[i]) ==> Candidates(userId, reviews[..i + 1]) == Candidates(userId, reviews[..i])
  {
    assert reviews[..i + 1][..i] == reviews[..i];
  }

  // ---------------------------------------------------------------- first per shop

  /** The shopMap of lines 50-80: a shop already in the map is skipped. */
  function FirstPerShop(entries: seq<DC.Entry>): (r: seq<DC.Entry>)
    ensures |r| <= |entries|
  {
    if entries == [] then []
    else KeepFirst(FirstPerShop(entries[..|entries| - 1]), entries[|entries| - 1])
  }

  function KeepFirst(uniq: seq<DC.Entry>, e: DC.Entry): (r: seq<DC.Entry>)
    ensures |uniq| <= |r| <= |uniq| + 1
  {
    if DC.IndexOfShop(uniq, e.shopId).None? then uniq + [e] else uniq
  }

  /** Where the shop's first entry is, if it has one: the reference for "the first review wins". */
  function FirstIndexOf(entries: seq<DC.Entry>, shopId: int): (f: Option<nat>)
    ensures f.Some? ==> f.value < |entries| && entries[f.value].shopId == shopId
                        && forall j :: 0 <= j < f.value ==> entries[j].shopId != shopId
    ensures f.None? ==> forall j :: 0 <= j < |entries| ==> entries[j].shopId != shopId
  {
    if entries == [] then None
    else
      var n := |entries| - 1;
      var f := FirstIndexOf(entries[..n], shopId);
      if f.Some? then Some(f.value)
      else if entries[n].shopId == shopId then Some(n)
      else None
  }

  /** Every entry of r is the first entry of its shop in entries. */
  predicate KeptFirst(entries: seq<DC.Entry>, r: seq<DC.Entry>)
  {
    forall k :: 0 <= k < |r| ==>
      FirstIndexOf(entries, r[k].shopId).Some? && entries[FirstIndexOf(entries, r[k].shopId).value] == r[k]
  }

  lemma {:induction false} FirstPerShopOnePerShop(entries: seq<DC.Entry>)
    ensures DC.OnePerShop(FirstPerShop(entries))
  {
    if entries != [] {
      FirstPerShopOnePerShop(entries[..|entries| - 1]);
    }
  }

  lemma KeepFirstCovers(entries: seq<DC.Entry>, uniq: seq<DC.Entry>, e: DC.Entry)
    requires DC.CoversShops(entries, uniq)
    ensures DC.CoversShops(entries + [e], KeepFirst(uniq, e))
  {
    var r := KeepFirst(uniq, e);
    var all := entries + [e];
    var idx := DC.IndexOfShop(uniq, e.shopId);
    assert exists k :: 0 <= k < |r| && r[k].shopId == e.shopId by {
      if idx.None? {
        assert r[|uniq|] == e;
      } else {
        assert r[idx.value].shopId == e.shopId;
      }
    }
    forall i | 0 <= i < |all|
      ensures exists k :: 0 <= k < |r| && r[k].shopId == all[i].shopId
    {
      if i < |entries| {
        assert all[i] == entries[i];
        var k :| 0 <= k < |uniq| && uniq[k].shopId == entries[i].shopId;
        assert r[k].shopId == uniq[k].shopId;
      }
    }
  }

  /** Every shop of the reviews keeps an entry. */
  lemma {:induction false} FirstPerShopCovers(entries: seq<DC.Entry>)
    ensures DC.CoversShops(entries, FirstPerShop(entries))
  {
    if entries != [] {
      var n := |entries| - 1;
      assert entries == entries[..n] + [entries[n]];
      FirstPerShopCovers(entries[..n]);
      KeepFirstCovers(entries[..n], FirstPerShop(entries[..n]), entries[n]);
    }
  }

  lemma FirstIndexOfSnoc(entries: seq<DC.Entry>, e: DC.Entry, shopId: int)
    ensures FirstIndexOf(entries, shopId).Some? ==> FirstIndexOf(entries + [e], shopId) == FirstIndexOf(entries, shopId)
    ensures FirstIndexOf(entries, shopId).None? && e.shopId == shopId ==> FirstIndexOf(entries + [e], shopId) == Some(|entries|)
  {
    assert (entries + [e])[..|entries|] == entries;
  }

  lemma KeepFirstKept(entries: seq<DC.Entry>, uniq: seq<DC.Entry>, e: DC.Entry)
    requires DC.CoversShops(entries, uniq) && KeptFirst(entries, uniq)
    ensures KeptFirst(entries + [e], KeepFirst(uniq, e))
  {
    var r := KeepFirst(uniq, e);
    var all := entries + [e];
    forall k | 0 <= k < |r|
      ensures FirstIndexOf(all, r[k].shopId).Some? && all[FirstIndexOf(all, r[k].shopId).value] == r[k]
    {
      FirstIndexOfSnoc(entries, e, r[k].shopId);
      if k < |uniq| {
        assert r[k] == uniq[k];
        assert all[FirstIndexOf(entries, r[k].shopId).value] == entries[FirstIndexOf(entries, r[k].shopId).value];
      } else {
        assert r[k] == e && DC.IndexOfShop(uniq, e.shopId).None?;
        if FirstIndexOf(entries, e.shopId).Some? {
          assert false;
        }
        assert all[|entries|] == e;
      }
    }
  }

  /** Each kept entry is the first review of its shop. */
  lemma {:induction false} FirstPerShopKeepsFirst(entries: seq<DC.Entry>)
    ensures KeptFirst(entries, FirstPerShop(entries))
  {
    if entries != [] {
      var n := |entries| - 1;
      assert entries == entries[..n] + [entries[n]];
      FirstPerShopKeepsFirst(entries[..n]);
      FirstPerShopCovers(entries[..n]);
      KeepFirstKept(entries[..n], FirstPerShop(entries[..n]), entries[n]);
    }
  }

  // ---------------------------------------------------------------- tiers and ranks

  /** The tier lists taken in order 3, 2, ..., t, each sorted by visit date, most recent first (lines 112-126). */
  function TiersDown(uniq: seq<DC.Entry>, t: int): (r: seq<DC.Entry>)
    requires 0 <= t <= 4
    ensures forall k :: 0 <= k < |r| ==> t <= r[k].tier <= 3
    decreases 4 - t
  {
    if t == 4 then []
    else
      var sorted := SortBy(DC.TierGroup(uniq, t), DC.ByDateDesc);
      assert forall k :: 0 <= k < |sorted| ==> sorted[k] in multiset(DC.TierGroup(uniq, t));
      TiersDown(uniq, t + 1) + sorted
  }

  lemma SortedTier(uniq: seq<DC.Entry>, t: int)
    ensures var sorted := SortBy(DC.TierGroup(uniq, t), DC.ByDateDesc);
            forall k :: 0 <= k < |sorted| ==> sorted[k].tier == t
  {
    var sorted := SortBy(DC.TierGroup(uniq, t), DC.ByDateDesc);
    assert forall k :: 0 <= k < |sorted| ==> sorted[k] in multiset(DC.TierGroup(uniq, t));
  }

  /** The rows the user would get; empty when there is nothing to write. */
  function NewRankings(userId: int, rows: seq<ContentRow>): (r: seq<DC.Ranking>)
    ensures forall k :: 0 <= k < |r| ==> r[k].userId == userId && r[k].rank == k + 1
  {
    RF.RankAll(userId, TiersDown(FirstPerShop(Candidates(userId, Reviews(userId, rows))), 0))
  }

  /** Tiers never increase along the order, and within a tier the dates never increase. */
  lemma {:induction false} TiersDownOrdered(uniq: seq<DC.Entry>, t: int)
    requires 0 <= t <= 4
    ensures TierDateOrdered(TiersDown(uniq, t))
    decreases 4 - t
  {
    if t < 4 {
      TiersDownOrdered(uniq, t + 1);
      var prefix := TiersDown(uniq, t + 1);
      var sorted := SortBy(DC.TierGroup(uniq, t), DC.ByDateDesc);
      SortedTierGroup(uniq, t, sorted);
      AppendTierOrdered(prefix, sorted, t);
    }
  }

  /** One tier's list, sorted by date, holds only that tier. */
  lemma SortedTierGroup(uniq: seq<DC.Entry>, t: int, sorted: seq<DC.Entry>)
    requires sorted == SortBy(DC.TierGroup(uniq, t), DC.ByDateDesc)
    ensures SortedBy(sorted, DC.ByDateDesc)
    ensures forall k :: 0 <= k < |sorted| ==> sorted[k].tier == t
  {
    DC.ByDateDescTotal();
    SortBySorted(DC.TierGroup(uniq, t), DC.ByDateDesc);
    SortedTier(uniq, t);
  }

  /** The order of the final list: tier descending, then visit date descending. */
  ghost predicate TierDateOrdered(r: seq<DC.Entry>)
  {
    forall i, j :: 0 <= i < j < |r| ==>
      r[i].tier >= r[j].tier && (r[i].tier == r[j].tier ==> r[i].visitDate >= r[j].visitDate)
  }

  lemma AppendTierOrdered(prefix: seq<DC.Entry>, sorted: seq<DC.Entry>, t: int)
    requires TierDateOrdered(prefix) && SortedBy(sorted, DC.ByDateDesc)
    requires forall k :: 0 <= k < |prefix| ==> t < prefix[k].tier
    requires forall k :: 0 <= k < |sorted| ==> sorted[k].tier == t
    ensures TierDateOrdered(prefix + sorted)
  {
    var r := prefix + sorted;
    forall i, j | 0 <= i < j < |r|
      ensures r[i].tier >= r[j].tier && (r[i].tier == r[j].tier ==> r[i].visitDate >= r[j].visitDate)
    {
      if j < |prefix| {
        assert r[i] == prefix[i] && r[j] == prefix[j];
      } else if i < |prefix| {
        assert r[i] == prefix[i] && r[j] == sorted[j - |prefix|];
      } else {
        assert r[i] == sorted[i - |prefix|] && r[j] == sorted[j - |prefix|];
      }
    }
  }

  /** Ranks run 1..N across all tiers, tier 3 first, later visits first within a tier. */
  lemma RankedTiers(userId: int, uniq: seq<DC.Entry>)
    ensures var r := RF.RankAll(userId, TiersDown(uniq, 0));
            forall i, j :: 0 <= i < j < |r| ==> r[i].rank == i + 1 && r[i].tier >= r[j].tier
  {
    TiersDownOrdered(uniq, 0);
  }

  // ---------------------------------------------------------------- the loops

  /** The per-user body (lines 47-126). */
  method RecalcUser(userId: int, reviews: seq<ContentRow>) returns (newRankings: seq<DC.Ranking>)
    ensures newRankings == RF.RankAll(userId, TiersDown(FirstPerShop(Candidates(userId, reviews)), 0))
  {
    if |reviews| == 0 {
      assert Candidates(userId, reviews) == [];
      return [];
    }
    var candidates := ShopMap(userId, reviews);
    var tiered := GroupTiers(candidates);
    newRankings := AssignRanks(userId, candidates, tiered);
  }

  method ShopMap(userId: int, reviews: seq<ContentRow>) returns (candidates: seq<DC.Entry>)
    ensures candidates == FirstPerShop(Candidates(userId, reviews))
  {
    candidates := [];
    for i := 0 to |reviews|
      invariant candidates == FirstPerShop(Candidates(userId, reviews[..i]))
    {
      var r := reviews[i];
      CandidatesSnoc(userId, reviews, i);
      if HasShop(r) {
        var entry := CandidateOf(userId, r).value;
        var c := Candidates(userId, reviews[..i]) + [entry];
        assert c[..|c| - 1] == Candidates(userId, reviews[..i]);
        if DC.IndexOfShop(candidates, entry.shopId).None? {
          candidates := candidates + [entry];
        }
      }
    }
    assert reviews[..|reviews|] == reviews;
  }

  /** tieredMap (lines 86-97): every candidate's tier is one of 0..3, so every candidate is pushed. */
  method GroupTiers(candidates: seq<DC.Entry>) returns (tiered: seq<seq<DC.Entry>>)
    ensures |tiered| == 4 && forall t :: 0 <= t < 4 ==> tiered[t] == DC.TierGroup(candidates, t)
  {
    tiered := [[], [], [], []];
    for i := 0 to |candidates|
      invariant |tiered| == 4 && forall t :: 0 <= t < 4 ==> tiered[t] == DC.TierGroup(candidates[..i], t)
    {
      assert candidates[..i + 1][..i] == candidates[..i];
      var c := candidates[i];
      if 0 <= c.tier < 4 {
        tiered := tiered[c.tier := tiered[c.tier] + [c]];
      }
    }
    assert candidates[..|candidates|] == candidates;
  }

  /** Lines 110-126: one global counter across the tiers, 3 down to 0. */
  method AssignRanks(userId: int, uniq: seq<DC.Entry>, tiered: seq<seq<DC.Entry>>) returns (newRankings: seq<DC.Ranking>)
    requires |tiered| == 4 && forall t :: 0 <= t < 4 ==> tiered[t] == DC.TierGroup(uniq, t)
    ensures newRankings == RF.RankAll(userId, TiersDown(uniq, 0))
  {
    newRankings := [];
    var currentRank := 1;
    var t := 3;
    while t >= 0
      invariant -1 <= t <= 3
      invariant currentRank == |newRankings| + 1
      invariant newRankings == RF.RankAll(userId, TiersDown(uniq, t + 1))
    {
      var list := SortBy(tiered[t], DC.ByDateDesc);
      ghost var done := TiersDown(uniq, t + 1);
      assert list == SortBy(DC.TierGroup(uniq, t), DC.ByDateDesc) by {
        assert tiered[t] == DC.TierGroup(uniq, t);
      }
      assert done + list == TiersDown(uniq, t) by {
        TiersDownStep(uniq, t);
      }
      assert forall k :: 0 <= k < |list| ==> list[k].tier == t by {
        SortedTier(uniq, t);
      }
      newRankings, currentRank := PushTier(userId, newRankings, currentRank, done, list, t);
      t := t - 1;
    }
  }

  lemma TiersDownStep(uniq: seq<DC.Entry>, t: int)
    requires 0 <= t <= 3
    ensures TiersDown(uniq, t) == TiersDown(uniq, t + 1) + SortBy(DC.TierGroup(uniq, t), DC.ByDateDesc)
  {
  }

  /** The forEach of lines 118-125 over one sorted tier list. */
  method PushTier(userId: int, rankings: seq<DC.Ranking>, rank: int, ghost done: seq<DC.Entry>, list: seq<DC.Entry>, t: int)
    returns (newRankings: seq<DC.Ranking>, currentRank: int)
    requires rankings == RF.RankAll(userId, done) && rank == |rankings| + 1
    requires forall k :: 0 <= k < |list| ==> list[k].tier == t
    ensures newRankings == RF.RankAll(userId, done + list) && currentRank == |newRankings| + 1
  {
    newRankings, currentRank := rankings, rank;
    for j := 0 to |list|
      invariant currentRank == |newRankings| + 1
      invariant newRankings == RF.RankAll(userId, done + list[..j])
    {
      RankAllSnoc(userId, done + list[..j], list[j]);
      assert done + list[..j + 1] == done + list[..j] + [list[j]];
      newRankings := newRankings + [DC.Ranking(userId, list[j].shopId, currentRank, t)];
      currentRank := currentRank + 1;
    }
    assert list[..|list|] == list;
  }

  lemma RankAllSnoc(userId: int, order: seq<DC.Entry>, e: DC.Entry)
    ensures RF.RankAll(userId, order + [e]) == RF.RankAll(userId, order) + [DC.Ranking(userId, e.shopId, |order| + 1, e.tier)]
  {
    var a := RF.RankAll(userId, order + [e]);
    var b := RF.RankAll(userId, order) + [DC.Ranking(userId, e.shopId, |order| + 1, e.tier)];
    assert |a| == |b|;
    forall k | 0 <= k < |a|
      ensures a[k] == b[k]
    {
      if k < |order| {
        assert (order + [e])[k] == order[k];
      }
    }
  }

  /**
   * Lines 20-141: users 191..318 of the users table are processed; a user
   * whose new ranking list is empty keeps their rows untouched.
   */
  method Recalculate(table: RankingStore.RankingTable, userIds: seq<int>, rows: seq<ContentRow>)
    modifies table
    ensures forall u :: u in userIds && FirstUser <= u <= LastUser && NewRankings(u, rows) != []
              ==> u in table.byUser && table.byUser[u] == NewRankings(u, rows)
    ensures forall u :: !(u in userIds && FirstUser <= u <= LastUser && NewRankings(u, rows) != [])
              ==> (u in table.byUser <==> u in old(table.byUser)) && (u in table.byUser ==> table.byUser[u] == old(table.byUser)[u])
  {
    for i := 0 to |userIds|
      invariant Processed(table.byUser, old(table.byUser), userIds[..i], rows)
    {
      assert userIds[..i + 1] == userIds[..i] + [userIds[i]];
      var userId := userIds[i];
      ProcessedStep(table.byUser, old(table.byUser), userIds[..i], userId, rows);
      if FirstUser <= userId <= LastUser {
        var reviews := Reviews(userId, rows);
        var newRankings := RecalcUser(userId, reviews);
        if |newRankings| > 0 {
          table.byUser := table.byUser[userId := newRankings];
        }
      }
    }
    assert userIds[..|userIds|] == userIds;
  }

  /**
   * The table m after the users `done` were processed, starting from m0: each
   * of them in range with new rankings has exactly those, and every other
   * user keeps what it had.
   */
  ghost predicate Processed(m: map<int, seq<DC.Ranking>>, m0: map<int, seq<DC.Ranking>>, done: seq<int>, rows: seq<ContentRow>)
  {
    (forall u :: u in done && FirstUser <= u <= LastUser && NewRankings(u, rows) != [] ==> u in m && m[u] == NewRankings(u, rows))
    && (forall u :: !(u in done && FirstUser <= u <= LastUser && NewRankings(u, rows) != [])
          ==> (u in m <==> u in m0) && (u in m ==> m[u] == m0[u]))
  }

  /** Processing one more user keeps Processed. */
  lemma ProcessedStep(m: map<int, seq<DC.Ranking>>, m0: map<int, seq<DC.Ranking>>, done: seq<int>, userId: int, rows: seq<ContentRow>)
    requires Processed(m, m0, done, rows)
    ensures Processed(if FirstUser <= userId <= LastUser && NewRankings(userId, rows) != [] then m[userId := NewRankings(userId, rows)] else m,
                      m0, done + [userId], rows)
  {
    var nr := NewRankings(userId, rows);
    var d2 := done + [userId];
    var m2 := if FirstUser <= userId <= LastUser && nr != [] then m[userId := nr] else m;
    forall u | u in d2 && FirstUser <= u <= LastUser && NewRankings(u, rows) != []
      ensures u in m2 && m2[u] == NewRankings(u, rows)
    {
      if u != userId {
        assert u in done;
      }
    }
    forall u | !(u in d2 && FirstUser <= u <= LastUser && NewRankings(u, rows) != [])
      ensures (u in m2 <==> u in m0) && (u in m2 ==> m2[u] == m0[u])
    {
      assert !(u in done && FirstUser <= u <= LastUser && NewRankings(u, rows) != []);
    }
    assert Processed(m2, m0, d2, rows);
  }
}
