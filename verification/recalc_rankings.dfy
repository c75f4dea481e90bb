/**
 * server/scripts/recalc_rankings.ts: every user's rankings are rebuilt from
 * their non-deleted reviews. Reviews sort by satisfaction key ascending
 * (best 1 .. bad 4, unknown 5), then visit date descending; the first review
 * of each shop in that order is kept and ranked 1..N.
 */
module RecalcRankings {
  import opened Wrappers
  import opened Sorting
  import DC = DistributeContent
  import RF = RedistributeFast
  import RR = RecalcRanking
  import RankingStore

  /** `SATISFACTION_MAP[s] || 5` (lines 6-11, 51-52): the sort key, lower is better. */
  function SortKey(satisfaction: string): (key: int)
    ensures 1 <= key <= 5
    ensures key == 1 <==> satisfaction == "best"
    ensures key == 2 <==> satisfaction == "good"
    ensures key == 3 <==> satisfaction == "ok"
    ensures key == 4 <==> satisfaction == "bad"
  {
    match satisfaction
    case "best" => 1
    case "good" => 2
    case "ok" => 3
    case "bad" => 4
    case _ => 5
  }

  /** `SATISFACTION_MAP[s] || 2` (line 89): the tier stored, from the sort key. */
  function StoredTier(key: int): (tier: int)
    ensures key != 5 ==> tier == key
    ensures key == 5 ==> tier == 2
  {
    if key == 5 then 2 else key
  }

  /** '1970-01-01' as milliseconds. */
  const Epoch := 0

  /** A content row as the query of lines 22-30 reads it. */
  datatype ContentRow = ContentRow(userId: int, isDeleted: bool, prop: Option<RF.ReviewProp>)

  predicate IsValid(row: ContentRow)
  {
    row.prop.Some? && row.prop.value.shopId.Some? && row.prop.value.shopId.value != 0
  }

  /** The mapped review of lines 33-42; its tier field holds the sort key. */
  function ValidReview(userId: int, row: ContentRow): (e: DC.Entry)
    requires IsValid(row)
    ensures e.shopId == row.prop.value.shopId.value && e.tier == SortKey(row.prop.value.satisfaction)
    ensures row.prop.value.visitDate.Some? ==> e.visitDate == row.prop.value.visitDate.value
    ensures row.prop.value.visitDate.None? ==> e.visitDate == Epoch
  {
    var prop := row.prop.value;
    DC.Entry(userId, prop.shopId.value, prop.visitDate.GetOr(Epoch), SortKey(prop.satisfaction))
  }

  /** The user's rows that are not deleted and carry a shop, mapped, in query order. */
  function ValidReviews(userId: int, rows: seq<ContentRow>): (r: seq<DC.Entry>)
    ensures |r| <= |rows|
    ensures r == [] <==> forall k :: 0 <= k < |rows| ==> !(rows[k].userId == userId && !rows[k].isDeleted && IsValid(rows[k]))
  {
    if rows == [] then []
    else
      var n := |rows| - 1;
      var init := ValidReviews(userId, rows[..n]);
      assert forall k :: 0 <= k < n ==> rows[..n][k] == rows[k];
      var row := rows[n];
      if row.userId == userId && !row.isDeleted && IsValid(row) then init + [ValidReview(userId, row)] else init
  }

  /** The comparator of lines 50-60 as "may come first": lower key, then later visit. */
  function ByKeyThenDate(a: DC.Entry, b: DC.Entry): bool
  {
    a.tier < b.tier || (a.tier == b.tier && a.visitDate >= b.visitDate)
  }

  lemma ByKeyThenDateTotal()
    ensures TotalPreorder(ByKeyThenDate)
  {
  }

  /** Lines 85-90: ranks from 1 in list order, tier from the key. */
  function ToInsert(userId: int, unique: seq<DC.Entry>): (r: seq<DC.Ranking>)
    ensures |r| == |unique|
    ensures forall k :: 0 <= k < |r| ==> r[k] == DC.Ranking(userId, unique[k].shopId, k + 1, StoredTier(unique[k].tier))
  {
    seq(|unique|, k requires 0 <= k < |unique| => DC.Ranking(userId, unique[k].shopId, k + 1, StoredTier(unique[k].tier)))
  }

  function Sorted(userId: int, rows: seq<ContentRow>): seq<DC.Entry>
  {
    SortBy(ValidReviews(userId, rows), ByKeyThenDate)
  }

  /** The rows the user gets; empty when the script skips the user. */
  function NewRankings(userId: int, rows: seq<ContentRow>): (r: seq<DC.Ranking>)
    ensures forall k :: 0 <= k < |r| ==> r[k].userId == userId && r[k].rank == k + 1
  {
    ToInsert(userId, RR.FirstPerShop(Sorted(userId, rows)))
  }

  /** The per-user body (lines 32-94), from the valid reviews on. */
  method RecalcUser(userId: int, validReviews: seq<DC.Entry>) returns (toInsert: seq<DC.Ranking>)
    ensures toInsert == ToInsert(userId, RR.FirstPerShop(SortBy(validReviews, ByKeyThenDate)))
  {
    if |validReviews| == 0 {
      return [];
    }
    var sorted := SortBy(validReviews, ByKeyThenDate);
    var uniqueReviews := UniqueReviews(sorted);
    toInsert := [];
    for k := 0 to |uniqueReviews|
      invariant |toInsert| == k
      invariant forall j :: 0 <= j < k ==>
                  toInsert[j] == DC.Ranking(userId, uniqueReviews[j].shopId, j + 1, StoredTier(uniqueReviews[j].tier))
    {
      toInsert := toInsert + [DC.Ranking(userId, uniqueReviews[k].shopId, k + 1, StoredTier(uniqueReviews[k].tier))];
    }
  }

  /** The seenShops loop of lines 70-77. */
  method UniqueReviews(sorted: seq<DC.Entry>) returns (uniqueReviews: seq<DC.Entry>)
    ensures uniqueReviews == RR.FirstPerShop(sorted)
  {
    uniqueReviews := [];
    var seenShops: set<int> := {};
    for i := 0 to |sorted|
      invariant uniqueReviews == RR.FirstPerShop(sorted[..i])
      invariant forall s :: s in seenShops <==> exists k :: 0 <= k < |uniqueReviews| && uniqueReviews[k].shopId == s
    {
      var r := sorted[i];
      assert sorted[..i + 1][..i] == sorted[..i];
      if r.shopId !in seenShops {
        assert DC.IndexOfShop(uniqueReviews, r.shopId).None?;
        ghost var before := uniqueReviews;
        seenShops := seenShops + {r.shopId};
        uniqueReviews := uniqueReviews + [r];
        forall s | s in seenShops
          ensures exists k :: 0 <= k < |uniqueReviews| && uniqueReviews[k].shopId == s
        {
          if s == r.shopId {
            assert uniqueReviews[|before|].shopId == s;
          } else {
            var k :| 0 <= k < |before| && before[k].shopId == s;
            assert uniqueReviews[k] == before[k];
          }
        }
      } else {
        var k :| 0 <= k < |uniqueReviews| && uniqueReviews[k].shopId == r.shopId;
        assert DC.IndexOfShop(uniqueReviews, r.shopId).Some?;
      }
    }
    assert sorted[..|sorted|] == sorted;
  }

  /** The ranks are exactly 1..N and no shop appears twice. */
  lemma NewRankingsSpec(userId: int, rows: seq<ContentRow>)
    ensures var r := NewRankings(userId, rows);
            (forall k :: 0 <= k < |r| ==> r[k].rank == k + 1 && r[k].userId == userId)
            && RankingStore.UniqueShops(r)
  {
    RR.FirstPerShopOnePerShop(Sorted(userId, rows));
  }

  /**
   * The row kept for a shop is that shop's best review: no review of the
   * shop has a lower key, nor the same key and a later visit.
   */
  lemma KeptReviewIsBest(userId: int, rows: seq<ContentRow>, k: nat, i: nat)
    requires k < |RR.FirstPerShop(Sorted(userId, rows))|
    requires i < |ValidReviews(userId, rows)|
    requires ValidReviews(userId, rows)[i].shopId == RR.FirstPerShop(Sorted(userId, rows))[k].shopId
    ensures ByKeyThenDate(RR.FirstPerShop(Sorted(userId, rows))[k], ValidReviews(userId, rows)[i])
  {
    var valid := ValidReviews(userId, rows);
    var sorted := Sorted(userId, rows);
    var kept := RR.FirstPerShop(sorted)[k];
    RR.FirstPerShopKeepsFirst(sorted);
    ByKeyThenDateTotal();
    SortBySorted(valid, ByKeyThenDate);
    var f := RR.FirstIndexOf(sorted, kept.shopId).value;
    assert valid[i] in multiset(sorted);
    var j :| 0 <= j < |sorted| && sorted[j] == valid[i];
    if j != f {
      assert j > f;
      assert ByKeyThenDate(sorted[f], sorted[j]);
    }
  }

  /** The script skips a user exactly when they have no review with a shop. */
  lemma SkippedIffNoValidReview(userId: int, rows: seq<ContentRow>)
    ensures NewRankings(userId, rows) == [] <==> ValidReviews(userId, rows) == []
  {
    var sorted := Sorted(userId, rows);
    if sorted != [] {
      RR.FirstPerShopCovers(sorted);
      assert exists m :: 0 <= m < |RR.FirstPerShop(sorted)| && RR.FirstPerShop(sorted)[m].shopId == sorted[0].shopId;
    }
  }

  /**
   * Lines 17-96: users with at least one valid review get their rows
   * replaced; the others keep theirs.
   */
  method RecalcAll(table: RankingStore.RankingTable, userIds: seq<int>, rows: seq<ContentRow>)
    modifies table
    ensures Replaced(table.byUser, old(table.byUser), userIds, rows)
  {
    for i := 0 to |userIds|
      invariant Replaced(table.byUser, old(table.byUser), userIds[..i], rows)
    {
      var userId := userIds[i];
      ReplacedStep(table.byUser, old(table.byUser), userIds[..i], userId, rows);
      assert userIds[..i + 1] == userIds[..i] + [userId];
      RecalcOne(table, userId, rows);
    }
    assert userIds[..|userIds|] == userIds;
  }

  /** One iteration of the user loop: replace the user's rows when there is a valid review. */
  method RecalcOne(table: RankingStore.RankingTable, userId: int, rows: seq<ContentRow>)
    modifies table
    ensures table.byUser == if NewRankings(userId, rows) != [] then old(table.byUser)[userId := NewRankings(userId, rows)] else old(table.byUser)
  {
    var validReviews := ValidReviews(userId, rows);
    SkippedIffNoValidReview(userId, rows);
    if |validReviews| > 0 {
      var toInsert := RecalcUser(userId, validReviews);
      table.byUser := table.byUser[userId := toInsert];
    }
  }

  /**
   * The table m after the users `done` were processed, starting from m0: each
   * of them with new rankings has exactly those, and every other user keeps
   * what it had.
   */
  ghost predicate Replaced(m: map<int, seq<DC.Ranking>>, m0: map<int, seq<DC.Ranking>>, done: seq<int>, rows: seq<ContentRow>)
  {
    (forall u :: u in done && NewRankings(u, rows) != [] ==> u in m && m[u] == NewRankings(u, rows))
    && (forall u :: !(u in done && NewRankings(u, rows) != []) ==> (u in m <==> u in m0) && (u in m ==> m[u] == m0[u]))
  }

  /** Processing one more user keeps Replaced. */
  lemma ReplacedStep(m: map<int, seq<DC.Ranking>>, m0: map<int, seq<DC.Ranking>>, done: seq<int>, userId: int, rows: seq<ContentRow>)
    requires Replaced(m, m0, done, rows)
    ensures Replaced(if NewRankings(userId, rows) != [] then m[userId := NewRankings(userId, rows)] else m, m0, done + [userId], rows)
  {
    var nr := NewRankings(userId, rows);
    var d2 := done + [userId];
    var m2 := if nr != [] then m[userId := nr] else m;
    forall u | u in d2 && NewRankings(u, rows) != []
      ensures u in m2 && m2[u] == NewRankings(u, rows)
    {
      if u != userId {
        assert u in done;
      }
    }
    forall u | !(u in d2 && NewRankings(u, rows) != [])
      ensures (u in m2 <==> u in m0) && (u in m2 ==> m2[u] == m0[u])
    {
      assert !(u in done && NewRankings(u, rows) != []);
      assert u != userId || nr == [];
    }
    assert Replaced(m2, m0, d2, rows);
  }
}
