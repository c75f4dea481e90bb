/**
 * server/scripts/fix-all-user-rankings.ts: each user's rankings are sorted
 * by tier (2, 1, 0) and then by their old rank, and renumbered 1..N in that
 * order, so that ranks run on across tiers instead of restarting.
 */
module FixRankings {
  import opened Sorting
  import DC = DistributeContent
  import RankingStore

  /** The comparator of lines 54-59 as "may come first": higher tier, then lower old rank. */
  function ByTierThenRank(a: DC.Ranking, b: DC.Ranking): bool
  {
    a.tier > b.tier || (a.tier == b.tier && a.rank <= b.rank)
  }

  lemma ByTierThenRankTotal()
    ensures TotalPreorder(ByTierThenRank)
  {
  }

  /** The rows with the ranks of their positions (lines 74-87). */
  function Renumber(sorted: seq<DC.Ranking>): (r: seq<DC.Ranking>)
    ensures |r| == |sorted|
    ensures forall k :: 0 <= k < |r| ==> r[k] == sorted[k].(rank := k + 1)
  {
    seq(|sorted|, k requires 0 <= k < |sorted| => sorted[k].(rank := k + 1))
  }

  /** needsUpdate (lines 62-69): some rank differs from its position. */
  predicate NeedsUpdate(sorted: seq<DC.Ranking>)
  {
    exists i :: 0 <= i < |sorted| && sorted[i].rank != i + 1
  }

  /** The user's rows after the script, listed in their new rank order. */
  function Fixed(rows: seq<DC.Ranking>): seq<DC.Ranking>
  {
    Renumber(SortBy(rows, ByTierThenRank))
  }

  /** The body of the per-user loop (lines 49-93). */
  method FixUser(rankings: seq<DC.Ranking>) returns (sortedRankings: seq<DC.Ranking>, needsUpdate: bool)
    ensures sortedRankings == Fixed(rankings)
    ensures needsUpdate == NeedsUpdate(SortBy(rankings, ByTierThenRank))
    ensures !needsUpdate ==> multiset(sortedRankings) == multiset(rankings)
  {
    sortedRankings := SortBy(rankings, ByTierThenRank);
    needsUpdate := false;
    var i := 0;
    while i < |sortedRankings|
      invariant 0 <= i <= |sortedRankings|
      invariant !needsUpdate ==> forall j :: 0 <= j < i ==> sortedRankings[j].rank == j + 1
      invariant needsUpdate ==> NeedsUpdate(sortedRankings)
    {
      if sortedRankings[i].rank != i + 1 {
        assert NeedsUpdate(sortedRankings);
        needsUpdate := true;
        break;
      }
      i := i + 1;
    }
    if needsUpdate {
      var j := 0;
      while j < |sortedRankings|
        invariant 0 <= j <= |sortedRankings| && |sortedRankings| == |rankings|
        invariant forall k :: 0 <= k < j ==> sortedRankings[k] == SortBy(rankings, ByTierThenRank)[k].(rank := k + 1)
        invariant forall k :: j <= k < |sortedRankings| ==> sortedRankings[k] == SortBy(rankings, ByTierThenRank)[k]
      {
        sortedRankings := sortedRankings[j := sortedRankings[j].(rank := j + 1)];
        j := j + 1;
      }
    } else {
      assert forall k :: 0 <= k < |sortedRankings| ==> sortedRankings[k] == sortedRankings[k].(rank := k + 1);
    }
  }

  /** The new ranks are exactly 1..N and follow tier descending, then old rank. */
  lemma FixedSpec(rows: seq<DC.Ranking>)
    ensures var r := Fixed(rows);
            |r| == |rows| && forall k :: 0 <= k < |r| ==> r[k].rank == k + 1
    ensures var r := Fixed(rows);
            forall i, j :: 0 <= i < j < |r| ==> r[i].tier >= r[j].tier
  {
    ByTierThenRankTotal();
    SortBySorted(rows, ByTierThenRank);
  }

  /** Only ranks change: every new row is an old row with its new rank. */
  lemma FixedRowsFromInput(rows: seq<DC.Ranking>)
    ensures var r := Fixed(rows);
            forall k :: 0 <= k < |r| ==> exists j :: 0 <= j < |rows| && r[k] == rows[j].(rank := k + 1)
  {
    var s := SortBy(rows, ByTierThenRank);
    var r := Renumber(s);
    forall k | 0 <= k < |r|
      ensures exists j :: 0 <= j < |rows| && r[k] == rows[j].(rank := k + 1)
    {
      assert s[k] in multiset(rows);
      assert s[k] in rows;
      var j :| 0 <= j < |rows| && rows[j] == s[k];
      assert r[k] == rows[j].(rank := k + 1);
    }
  }

  /** No row is lost: every old row is still there with its new rank. */
  lemma FixedKeepsEveryRow(rows: seq<DC.Ranking>)
    ensures var r := Fixed(rows);
            forall j :: 0 <= j < |rows| ==> exists k :: 0 <= k < |r| && r[k] == rows[j].(rank := k + 1)
  {
    var s := SortBy(rows, ByTierThenRank);
    var r := Renumber(s);
    forall j | 0 <= j < |rows|
      ensures exists k :: 0 <= k < |r| && r[k] == rows[j].(rank := k + 1)
    {
      assert rows[j] in multiset(s);
      assert rows[j] in s;
      var k :| 0 <= k < |s| && s[k] == rows[j];
      assert 0 <= k < |r| && r[k] == rows[j].(rank := k + 1);
    }
    assert r == Fixed(rows);
  }

  /** Running the script twice gives what running it once gives, and the second run writes nothing. */
  lemma FixedIdempotent(rows: seq<DC.Ranking>)
    ensures Fixed(Fixed(rows)) == Fixed(rows)
    ensures !NeedsUpdate(SortBy(Fixed(rows), ByTierThenRank))
  {
    var r := Fixed(rows);
    ByTierThenRankTotal();
    SortBySorted(rows, ByTierThenRank);
    assert SortedBy(r, ByTierThenRank) by {
      forall i, j | 0 <= i < j < |r|
        ensures ByTierThenRank(r[i], r[j])
      {
      }
    }
    SortBySortedIdentity(r, ByTierThenRank);
    assert Renumber(r) == r;
  }

  /** Lines 34-94: every user's rows are fixed; the users are independent of each other. */
  method FixAll(table: RankingStore.RankingTable)
    modifies table
    ensures table.byUser.Keys == old(table.byUser.Keys)
    ensures forall u :: u in table.byUser ==> table.byUser[u] == Fixed(old(table.byUser)[u])
  {
    ghost var before := table.byUser;
    var pending := table.byUser.Keys;
    while pending != {}
      invariant pending <= before.Keys && table.byUser.Keys == before.Keys
      invariant forall u :: u in pending ==> table.byUser[u] == before[u]
      invariant forall u :: u in before && u !in pending ==> table.byUser[u] == Fixed(before[u])
      decreases |pending|
    {
      var userId := RankingStore.PickUser(pending);
      var rankings := table.byUser[userId];
      var sortedRankings, needsUpdate := FixUser(rankings);
      table.byUser := table.byUser[userId := sortedRankings];
      pending := pending - {userId};
    }
  }
}
