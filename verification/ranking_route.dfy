/**
 * server/routes/ranking.ts: POST /batch appends a relay session's ratings
 * after the user's last rank, skipping shops already ranked; PUT /reorder
 * sets rank and tier for the listed shops.
 */
module RankingRoute {
  import opened Wrappers
  import opened Sorting
  import DC = DistributeContent
  import RankingStore

  /** One element of the batch body. */
  datatype BatchItem = BatchItem(shopId: int, satisfaction: string)

  /** One element of the reorder body. */
  datatype ReorderItem = ReorderItem(shopId: int, rank: int, tier: int)

  datatype BatchResponse = BadRequest | Ok(count: nat)

  /** mapSatisfactionToTier of lines 126-133: good and anything unknown are tier 2. */
  function MapSatisfactionToTier(satisfaction: string): (tier: int)
    ensures 0 <= tier <= 2
    ensures tier == 1 <==> satisfaction == "ok"
    ensures tier == 0 <==> satisfaction == "bad"
  {
    match satisfaction
    case "good" => 2
    case "ok" => 1
    case "bad" => 0
    case _ => 2
  }

  /**
   * The sort key of lines 143-146 as written: `order[s] || 2`. The key of
   * 'good' is 0, which is falsy, so it becomes 2 like 'bad'.
   */
  function SortKeyAsWritten(satisfaction: string): (key: int)
    ensures key == 1 <==> satisfaction == "ok"
    ensures key != 1 ==> key == 2
  {
    var order := if satisfaction == "good" then 0 else if satisfaction == "ok" then 1 else if satisfaction == "bad" then 2 else 0;
    if order == 0 then 2 else order
  }

  /** The comparator of lines 143-146: `a` may precede `b` when its key is not larger. */
  function ByKeyAsWritten(a: BatchItem, b: BatchItem): bool
  {
    SortKeyAsWritten(a.satisfaction) <= SortKeyAsWritten(b.satisfaction)
  }

  lemma ByKeyAsWrittenTotal()
    ensures TotalPreorder(ByKeyAsWritten)
  {
  }

  predicate IsOk(item: BatchItem)
  {
    item.satisfaction == "ok"
  }

  /** The 'ok' items, in input order. */
  function OkItems(items: seq<BatchItem>): seq<BatchItem>
  {
    if items == [] then []
    else (if IsOk(items[0]) then [items[0]] else []) + OkItems(items[1..])
  }

  /** Every other item ('good', 'bad' and unknown values alike), in input order. */
  function OtherItems(items: seq<BatchItem>): seq<BatchItem>
  {
    if items == [] then []
    else (if IsOk(items[0]) then [] else [items[0]]) + OtherItems(items[1..])
  }

  /** The two groups split the items: each holds only its own kind. */
  lemma {:induction false} GroupsSplit(items: seq<BatchItem>)
    ensures forall i :: 0 <= i < |OkItems(items)| ==> IsOk(OkItems(items)[i])
    ensures forall i :: 0 <= i < |OtherItems(items)| ==> !IsOk(OtherItems(items)[i])
    ensures |OkItems(items)| + |OtherItems(items)| == |items|
  {
    if items != [] {
      GroupsSplit(items[1..]);
    }
  }

  /** A non-'ok' item is inserted after every leading 'ok' item and before the first other one. */
  lemma {:induction false} InsertAfterOk(x: BatchItem, oks: seq<BatchItem>, others: seq<BatchItem>)
    requires !IsOk(x)
    requires forall i :: 0 <= i < |oks| ==> IsOk(oks[i])
    requires forall i :: 0 <= i < |others| ==> !IsOk(others[i])
    ensures Insert(x, oks + others, ByKeyAsWritten) == oks + ([x] + others)
  {
    if oks == [] {
      assert oks + others == others;
    } else {
      assert (oks + others)[0] == oks[0];
      assert (oks + others)[1..] == oks[1..] + others;
      InsertAfterOk(x, oks[1..], others);
      assert oks == [oks[0]] + oks[1..];
      assert [oks[0]] + (oks[1..] + ([x] + others)) == oks + ([x] + others);
    }
  }

  /**
   * The sort as written is stable and has two keys: 1 for 'ok' and 2 for
   * everything else. So it moves the 'ok' items to the front and keeps both
   * groups in input order.
   */
  lemma {:induction false} SortAsWritten(items: seq<BatchItem>)
    ensures SortBy(items, ByKeyAsWritten) == OkItems(items) + OtherItems(items)
  {
    if items != [] {
      SortAsWritten(items[1..]);
      SortAsWrittenStep(items);
    }
  }

  /** One step of the sort: the first item goes to the front, or after the 'ok' items. */
  lemma SortAsWrittenStep(items: seq<BatchItem>)
    requires items != []
    requires SortBy(items[1..], ByKeyAsWritten) == OkItems(items[1..]) + OtherItems(items[1..])
    ensures SortBy(items, ByKeyAsWritten) == OkItems(items) + OtherItems(items)
  {
    var x := items[0];
    var oks, others := OkItems(items[1..]), OtherItems(items[1..]);
    assert SortBy(items, ByKeyAsWritten) == Insert(x, oks + others, ByKeyAsWritten);
    if IsOk(x) {
      assert OkItems(items) == [x] + oks && OtherItems(items) == others;
      InsertOk(x, oks, others);
    } else {
      assert OkItems(items) == oks && OtherItems(items) == [x] + others;
      GroupsSplit(items[1..]);
      InsertAfterOk(x, oks, others);
    }
  }

  /** An 'ok' item goes to the front. */
  lemma InsertOk(x: BatchItem, oks: seq<BatchItem>, others: seq<BatchItem>)
    requires IsOk(x)
    ensures Insert(x, oks + others, ByKeyAsWritten) == ([x] + oks) + others
  {
    assert [x] + (oks + others) == ([x] + oks) + others;
  }

  /** The order the comment of line 142 asks for: good first, then ok, then bad, by the tier stored. */
  function ByTier(a: BatchItem, b: BatchItem): bool
  {
    MapSatisfactionToTier(a.satisfaction) >= MapSatisfactionToTier(b.satisfaction)
  }

  lemma ByTierTotal()
    ensures TotalPreorder(ByTier)
  {
  }

  predicate HasShop(rows: seq<DC.Ranking>, shopId: int)
  {
    exists k :: 0 <= k < |rows| && rows[k].shopId == shopId
  }

  /** `COALESCE(MAX(rank), 0)` over the user's rows (lines 136-139). */
  function MaxRank(rows: seq<DC.Ranking>): (m: int)
    ensures forall k :: 0 <= k < |rows| ==> rows[k].rank <= m
    ensures rows == [] ==> m == 0
    ensures rows != [] ==> exists k :: 0 <= k < |rows| && rows[k].rank == m
  {
    if rows == [] then 0
    else
      var init := rows[..|rows| - 1];
      var last := rows[|rows| - 1].rank;
      assert forall k :: 0 <= k < |init| ==> init[k] == rows[k];
      if init == [] || MaxRank(init) < last then last else MaxRank(init)
  }

  /**
   * The user's rows after the insert loop of lines 149-172 over the sorted
   * items; `start` is the max rank read before the loop. An item whose shop
   * already has a row, including one inserted earlier in the loop, is skipped.
   */
  function Inserted(rows: seq<DC.Ranking>, userId: int, start: int, items: seq<BatchItem>): (r: seq<DC.Ranking>)
    ensures |rows| <= |r| <= |rows| + |items|
    ensures r[..|rows|] == rows
  {
    if items == [] then rows
    else
      var n := |items| - 1;
      var init := Inserted(rows, userId, start, items[..n]);
      var item := items[n];
      if HasShop(init, item.shopId) then init
      else
        assert (init + [DC.Ranking(userId, item.shopId, 0, 0)])[..|rows|] == init[..|rows|];
        init + [DC.Ranking(userId, item.shopId, start + |init| - |rows| + 1, MapSatisfactionToTier(item.satisfaction))]
  }

  lemma InsertedSnoc(rows: seq<DC.Ranking>, userId: int, start: int, items: seq<BatchItem>, i: nat)
    requires i < |items|
    ensures var init := Inserted(rows, userId, start, items[..i]);
            Inserted(rows, userId, start, items[..i + 1])
              == if HasShop(init, items[i].shopId) then init
                 else init + [DC.Ranking(userId, items[i].shopId, start + |init| - |rows| + 1, MapSatisfactionToTier(items[i].satisfaction))]
  {
    assert items[..i + 1][..i] == items[..i];
  }

  /** The user's rows after a batch: the items sorted by the comparator as written, then inserted. */
  function AfterBatch(rows: seq<DC.Ranking>, userId: int, items: seq<BatchItem>): seq<DC.Ranking>
  {
    Inserted(rows, userId, MaxRank(rows), SortBy(items, ByKeyAsWritten))
  }

  /** The rows the comment of line 142 intends: the items sorted good, ok, bad, then inserted. */
  function AfterBatchIntended(rows: seq<DC.Ranking>, userId: int, items: seq<BatchItem>): seq<DC.Ranking>
  {
    Inserted(rows, userId, MaxRank(rows), SortBy(items, ByTier))
  }

  /** The loop of lines 149-172, with currentRank counting up from the max rank. */
  method InsertItems(rows: seq<DC.Ranking>, userId: int, maxRank: int, sortedItems: seq<BatchItem>) returns (newRows: seq<DC.Ranking>)
    ensures newRows == Inserted(rows, userId, maxRank, sortedItems)
  {
    newRows := rows;
    var currentRank := maxRank;
    for i := 0 to |sortedItems|
      invariant newRows == Inserted(rows, userId, maxRank, sortedItems[..i])
      invariant currentRank == maxRank + |newRows| - |rows|
    {
      var item := sortedItems[i];
      InsertedSnoc(rows, userId, maxRank, sortedItems, i);
      var existing := FindShop(newRows, item.shopId);
      if existing {
        continue;
      }
      currentRank := currentRank + 1;
      var tier := MapSatisfactionToTier(item.satisfaction);
      newRows := newRows + [DC.Ranking(userId, item.shopId, currentRank, tier)];
    }
    assert sortedItems[..|sortedItems|] == sortedItems;
  }

  /** The "already exists" query of lines 151-158. */
  method FindShop(rows: seq<DC.Ranking>, shopId: int) returns (found: bool)
    ensures found == HasShop(rows, shopId)
  {
    found := false;
    for k := 0 to |rows|
      invariant found == exists j :: 0 <= j < k && rows[j].shopId == shopId
    {
      if rows[k].shopId == shopId {
        found := true;
      }
    }
  }

  /** A user's current rows; none when the table holds nothing for them. */
  function RowsOf(byUser: map<int, seq<DC.Ranking>>, userId: int): seq<DC.Ranking>
  {
    if userId in byUser then byUser[userId] else []
  }

  /**
   * POST /batch (lines 117-185). A body that is not an array, or an empty one,
   * is rejected; otherwise the reported count is the number of items sent,
   * skipped ones included.
   */
  method Batch(table: RankingStore.RankingTable, userId: int, items: Option<seq<BatchItem>>) returns (response: BatchResponse)
    modifies table
    ensures items.None? || items.value == [] ==> response == BadRequest && table.byUser == old(table.byUser)
    ensures items.Some? && items.value != [] ==>
              response == Ok(|items.value|)
              && table.byUser == old(table.byUser)[userId := AfterBatch(RowsOf(old(table.byUser), userId), userId, items.value)]
  {
    if items.None? || |items.value| == 0 {
      return BadRequest;
    }
    var rows := RowsOf(table.byUser, userId);
    var currentRank := MaxRank(rows);
    var sortedItems := SortBy(items.value, ByKeyAsWritten);
    rows := InsertItems(rows, userId, currentRank, sortedItems);
    table.byUser := table.byUser[userId := rows];
    response := Ok(|items.value|);
  }

  /**
   * The inserted rows follow the old ones, which are unchanged; they belong
   * to the user and take the ranks after the old maximum, one by one.
   */
  lemma {:induction false} InsertedRanks(rows: seq<DC.Ranking>, userId: int, start: int, items: seq<BatchItem>)
    ensures var r := Inserted(rows, userId, start, items);
            forall k :: |rows| <= k < |r| ==> r[k].rank == start + (k - |rows|) + 1 && r[k].userId == userId
  {
    if items != [] {
      var n := |items| - 1;
      var init := Inserted(rows, userId, start, items[..n]);
      var r := Inserted(rows, userId, start, items);
      InsertedRanks(rows, userId, start, items[..n]);
      assert forall k :: |rows| <= k < |Inserted(rows, userId, start, items[..n])| ==> Inserted(rows, userId, start, items[..n])[k].rank == start + (k - |rows|) + 1;
      if HasShop(init, items[n].shopId) {
        assert r == init;
      } else {
        assert r == init + [DC.Ranking(userId, items[n].shopId, start + |init| - |rows| + 1, MapSatisfactionToTier(items[n].satisfaction))];
      }
    }
  }

  /** Every item's shop has a row afterwards; a new row never repeats a shop. */
  lemma {:induction false} InsertedShops(rows: seq<DC.Ranking>, userId: int, start: int, items: seq<BatchItem>)
    ensures var r := Inserted(rows, userId, start, items);
            forall i :: 0 <= i < |items| ==> HasShop(r, items[i].shopId)
    ensures var r := Inserted(rows, userId, start, items);
            forall k :: |rows| <= k < |r| ==> !HasShop(r[..k], r[k].shopId)
  {
    if items != [] {
      var n := |items| - 1;
      var init := Inserted(rows, userId, start, items[..n]);
      var r := Inserted(rows, userId, start, items);
      InsertedShops(rows, userId, start, items[..n]);
      assert r[..|init|] == init;
      forall i | 0 <= i < |items|
        ensures HasShop(r, items[i].shopId)
      {
        if i < n {
          assert items[..n][i] == items[i];
          var k :| 0 <= k < |init| && init[k].shopId == items[i].shopId;
          assert r[k] == init[k];
        } else if !HasShop(init, items[i].shopId) {
          assert r[|init|].shopId == items[i].shopId;
        }
      }
      forall k | |rows| <= k < |r|
        ensures !HasShop(r[..k], r[k].shopId)
      {
        if k < |init| {
          assert r[..k] == init[..k];
        } else {
          assert r[..k] == init;
        }
      }
    }
  }

  /** With one row per shop before, there is one row per shop after. */
  lemma InsertedUnique(rows: seq<DC.Ranking>, userId: int, start: int, items: seq<BatchItem>)
    requires RankingStore.UniqueShops(rows)
    ensures RankingStore.UniqueShops(Inserted(rows, userId, start, items))
  {
    var r := Inserted(rows, userId, start, items);
    InsertedShops(rows, userId, start, items);
    forall i, j | 0 <= i < j < |r|
      ensures r[i].shopId != r[j].shopId
    {
      if j >= |rows| {
        assert r[..j][i] == r[i];
      } else {
        assert r[i] == rows[i] && r[j] == rows[j];
      }
    }
  }

  /** Every inserted row takes the tier of some item whose tier is at least lo, when all of them are. */
  lemma {:induction false} InsertedTiersAtLeast(rows: seq<DC.Ranking>, userId: int, start: int, items: seq<BatchItem>, lo: int)
    requires forall i :: 0 <= i < |items| ==> MapSatisfactionToTier(items[i].satisfaction) >= lo
    ensures var r := Inserted(rows, userId, start, items);
            forall k :: |rows| <= k < |r| ==> r[k].tier >= lo
  {
    if items != [] {
      var n := |items| - 1;
      var init := Inserted(rows, userId, start, items[..n]);
      var r := Inserted(rows, userId, start, items);
      assert forall i :: 0 <= i < n ==> items[..n][i] == items[i];
      InsertedTiersAtLeast(rows, userId, start, items[..n], lo);
      assert forall k :: |rows| <= k < |Inserted(rows, userId, start, items[..n])| ==> Inserted(rows, userId, start, items[..n])[k].tier >= lo;
      if HasShop(init, items[n].shopId) {
        assert r == init;
      } else {
        assert r == init + [DC.Ranking(userId, items[n].shopId, start + |init| - |rows| + 1, MapSatisfactionToTier(items[n].satisfaction))];
      }
    }
  }

  /** Items in tier order give inserted rows whose tiers never increase. */
  lemma {:induction false} InsertedTiersOrdered(rows: seq<DC.Ranking>, userId: int, start: int, items: seq<BatchItem>)
    requires SortedBy(items, ByTier)
    ensures var r := Inserted(rows, userId, start, items);
            forall a, b :: |rows| <= a < b < |r| ==> r[a].tier >= r[b].tier
  {
    if items != [] {
      var n := |items| - 1;
      var init := Inserted(rows, userId, start, items[..n]);
      var r := Inserted(rows, userId, start, items);
      assert forall i :: 0 <= i < n ==> items[..n][i] == items[i];
      InsertedTiersOrdered(rows, userId, start, items[..n]);
      InsertedTiersAtLeast(rows, userId, start, items[..n], MapSatisfactionToTier(items[n].satisfaction));
      assert forall a, b :: |rows| <= a < b < |Inserted(rows, userId, start, items[..n])| ==>
               Inserted(rows, userId, start, items[..n])[a].tier >= Inserted(rows, userId, start, items[..n])[b].tier;
      assert forall k :: |rows| <= k < |Inserted(rows, userId, start, items[..n])| ==>
               Inserted(rows, userId, start, items[..n])[k].tier >= MapSatisfactionToTier(items[n].satisfaction);
      if HasShop(init, items[n].shopId) {
        assert r == init;
      } else {
        assert r == init + [DC.Ranking(userId, items[n].shopId, start + |init| - |rows| + 1, MapSatisfactionToTier(items[n].satisfaction))];
      }
    }
  }

  /**
   * A batch as written leaves the old rows alone and inserts the 'ok' items
   * first, then every other item in input order, ranked on from the old maximum.
   */
  lemma AfterBatchSpec(rows: seq<DC.Ranking>, userId: int, items: seq<BatchItem>)
    ensures AfterBatch(rows, userId, items) == Inserted(rows, userId, MaxRank(rows), OkItems(items) + OtherItems(items))
    ensures AfterBatch(rows, userId, items)[..|rows|] == rows
    ensures forall k :: |rows| <= k < |AfterBatch(rows, userId, items)| ==>
              AfterBatch(rows, userId, items)[k].rank == MaxRank(rows) + (k - |rows|) + 1
              && AfterBatch(rows, userId, items)[k].userId == userId
  {
    SortAsWritten(items);
    InsertedRanks(rows, userId, MaxRank(rows), SortBy(items, ByKeyAsWritten));
  }

  /** The intended batch leaves the old rows alone and appends good, then ok, then bad, ranked on from the old maximum. */
  lemma IntendedBatchSpec(rows: seq<DC.Ranking>, userId: int, items: seq<BatchItem>)
    ensures AfterBatchIntended(rows, userId, items)[..|rows|] == rows
    ensures forall k :: |rows| <= k < |AfterBatchIntended(rows, userId, items)| ==>
              AfterBatchIntended(rows, userId, items)[k].rank == MaxRank(rows) + (k - |rows|) + 1
              && AfterBatchIntended(rows, userId, items)[k].userId == userId
    ensures forall a, b :: |rows| <= a < b < |AfterBatchIntended(rows, userId, items)| ==>
              AfterBatchIntended(rows, userId, items)[a].tier >= AfterBatchIntended(rows, userId, items)[b].tier
  {
    ByTierTotal();
    SortBySorted(items, ByTier);
    InsertedRanks(rows, userId, MaxRank(rows), SortBy(items, ByTier));
    InsertedTiersOrdered(rows, userId, MaxRank(rows), SortBy(items, ByTier));
    assert forall k :: |rows| <= k < |Inserted(rows, userId, MaxRank(rows), SortBy(items, ByTier))| ==>
             Inserted(rows, userId, MaxRank(rows), SortBy(items, ByTier))[k].rank == MaxRank(rows) + (k - |rows|) + 1;
  }

  /**
   * As written, a 'good' item sent before an 'ok' one is ranked after it:
   * the good shop gets rank 2 with tier 2 under the ok shop's rank 1 with tier 1.
   */
  lemma GoodAfterOkAsWritten()
    ensures var items := [BatchItem(10, "good"), BatchItem(20, "ok")];
            var r := Inserted([], 7, 0, SortBy(items, ByKeyAsWritten));
            r == [DC.Ranking(7, 20, 1, 1), DC.Ranking(7, 10, 2, 2)]
  {
    var items := [BatchItem(10, "good"), BatchItem(20, "ok")];
    assert SortBy(items[1..], ByKeyAsWritten) == [items[1]];
    assert SortBy(items, ByKeyAsWritten) == [items[1], items[0]];
    var s := [items[1], items[0]];
    assert s[..1] == [items[1]] && s[..1][..0] == [];
    assert Inserted([], 7, 0, s[..1]) == [DC.Ranking(7, 20, 1, 1)];
    assert s[..2] == s;
  }

  /** The same batch in the intended order puts the good shop first. */
  lemma GoodBeforeOk()
    ensures var items := [BatchItem(10, "good"), BatchItem(20, "ok")];
            AfterBatchIntended([], 7, items) == [DC.Ranking(7, 10, 1, 2), DC.Ranking(7, 20, 2, 1)]
  {
    var items := [BatchItem(10, "good"), BatchItem(20, "ok")];
    assert SortBy(items[1..], ByTier) == [items[1]];
    assert SortBy(items, ByTier) == items;
    assert items[..1][..0] == [];
    assert Inserted([], 7, 0, items[..1]) == [DC.Ranking(7, 10, 1, 2)];
    assert items[..2] == items;
  }

  /** The last reorder item naming the shop: the one whose update stands. */
  function LastItemFor(items: seq<ReorderItem>, shopId: int): (r: Option<nat>)
    ensures r.Some? ==> r.value < |items| && items[r.value].shopId == shopId
                        && forall i :: r.value < i < |items| ==> items[i].shopId != shopId
    ensures r.None? ==> forall i :: 0 <= i < |items| ==> items[i].shopId != shopId
  {
    if items == [] then None
    else if items[|items| - 1].shopId == shopId then Some(|items| - 1)
    else LastItemFor(items[..|items| - 1], shopId)
  }

  /** One UPDATE of lines 200-210: the row of that shop takes the item's rank and tier. */
  function ApplyItem(rows: seq<DC.Ranking>, item: ReorderItem): (r: seq<DC.Ranking>)
    ensures |r| == |rows|
  {
    seq(|rows|, k requires 0 <= k < |rows| =>
      if rows[k].shopId == item.shopId then rows[k].(rank := item.rank, tier := item.tier) else rows[k])
  }

  /** The user's rows after the reorder loop of lines 199-211. */
  function Reordered(rows: seq<DC.Ranking>, items: seq<ReorderItem>): (r: seq<DC.Ranking>)
    ensures |r| == |rows|
  {
    if items == [] then rows
    else ApplyItem(Reordered(rows, items[..|items| - 1]), items[|items| - 1])
  }

  /**
   * Only the listed shops change, and each takes the rank and tier of the
   * last item that names it; user and shop are never changed.
   */
  lemma {:induction false} ReorderedSpec(rows: seq<DC.Ranking>, items: seq<ReorderItem>)
    ensures var r := Reordered(rows, items);
            forall k :: 0 <= k < |rows| ==>
              match LastItemFor(items, rows[k].shopId)
              case None => r[k] == rows[k]
              case Some(i) => r[k] == rows[k].(rank := items[i].rank, tier := items[i].tier)
  {
    if items != [] {
      var n := |items| - 1;
      ReorderedSpec(rows, items[..n]);
      forall k | 0 <= k < |rows|
        ensures LastItemFor(items, rows[k].shopId).None? ==> Reordered(rows, items)[k] == rows[k]
      {
        if LastItemFor(items, rows[k].shopId).None? {
          assert items[n].shopId != rows[k].shopId;
        }
      }
    }
  }

  /** PUT /reorder (lines 189-221): a body that is not an array is rejected and nothing changes. */
  method Reorder(table: RankingStore.RankingTable, userId: int, items: Option<seq<ReorderItem>>) returns (ok: bool)
    modifies table
    ensures ok <==> items.Some?
    ensures !ok ==> table.byUser == old(table.byUser)
    ensures ok && userId in old(table.byUser) ==>
              table.byUser == old(table.byUser)[userId := Reordered(old(table.byUser)[userId], items.value)]
    ensures ok && userId !in old(table.byUser) ==> table.byUser == old(table.byUser)
  {
    if items.None? {
      return false;
    }
    if userId in table.byUser {
      var rows := ReorderRows(table.byUser[userId], items.value);
      table.byUser := table.byUser[userId := rows];
    }
    return true;
  }

  /** The loop of lines 199-211 over the user's rows. */
  method ReorderRows(rows: seq<DC.Ranking>, items: seq<ReorderItem>) returns (reordered: seq<DC.Ranking>)
    ensures reordered == Reordered(rows, items)
  {
    reordered := rows;
    for i := 0 to |items|
      invariant reordered == Reordered(rows, items[..i])
    {
      assert items[..i + 1][..i] == items[..i];
      reordered := UpdateShop(reordered, items[i]);
    }
    assert items[..|items|] == items;
  }

  /** One UPDATE statement over the user's rows. */
  method UpdateShop(rows: seq<DC.Ranking>, item: ReorderItem) returns (updated: seq<DC.Ranking>)
    ensures updated == ApplyItem(rows, item)
  {
    updated := rows;
    for k := 0 to |rows|
      invariant |updated| == |rows|
      invariant forall j :: 0 <= j < k ==>
                  updated[j] == if rows[j].shopId == item.shopId then rows[j].(rank := item.rank, tier := item.tier) else rows[j]
      invariant forall j :: k <= j < |rows| ==> updated[j] == rows[j]
    {
      if updated[k].shopId == item.shopId {
        updated := updated[k := updated[k].(rank := item.rank, tier := item.tier)];
      }
    }
  }
}
