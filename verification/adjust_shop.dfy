/**
 * server/scripts/adjust-shop-158-ranking.ts: every user who ranked shop 158
 * gets it at rank 1 with tier 2 (good). The rows ranked above its old place
 * move down one rank; the rows below it keep theirs.
 */
module AdjustShop {
  import opened Wrappers
  import DC = DistributeContent
  import RankingStore

  const TargetShop := 158
  const GoodTier := 2

  /** The user's row for the target shop (the query of lines 17-29), if any. */
  function TargetIndex(rows: seq<DC.Ranking>): (r: Option<nat>)
    ensures r.Some? ==> r.value < |rows| && rows[r.value].shopId == TargetShop
    ensures r.None? ==> forall k :: 0 <= k < |rows| ==> rows[k].shopId != TargetShop
  {
    if rows == [] then None
    else if rows[|rows| - 1].shopId == TargetShop then Some(|rows| - 1)
    else TargetIndex(rows[..|rows| - 1])
  }

  /** Whether the script changes anything (line 63). */
  predicate NeedsMove(currentRank: int, currentTier: int)
  {
    currentRank != 1 || currentTier != GoodTier
  }

  /** The rank a row has after the shift of lines 66-80. */
  function ShiftRank(rank: int, currentRank: int): int
  {
    if 1 <= rank < currentRank then rank + 1 else rank
  }

  /** The update of lines 68-79: ranks in [1, currentRank) go up by one. */
  function Shifted(rows: seq<DC.Ranking>, currentRank: int): (r: seq<DC.Ranking>)
    ensures |r| == |rows|
  {
    seq(|rows|, k requires 0 <= k < |rows| => rows[k].(rank := ShiftRank(rows[k].rank, currentRank)))
  }

  /** The update of lines 85-97: the target shop's row becomes rank 1, tier 2. */
  function Promoted(rows: seq<DC.Ranking>): (r: seq<DC.Ranking>)
    ensures |r| == |rows|
  {
    seq(|rows|, k requires 0 <= k < |rows| =>
      if rows[k].shopId == TargetShop then rows[k].(rank := 1, tier := GoodTier) else rows[k])
  }

  /** One user's rows after the transaction of lines 61-103. */
  function Adjusted(rows: seq<DC.Ranking>, currentRank: int, currentTier: int): seq<DC.Ranking>
  {
    if !NeedsMove(currentRank, currentTier) then rows
    else if currentRank > 1 then Promoted(Shifted(rows, currentRank))
    else Promoted(rows)
  }

  /** A user's rows after the script: adjusted with their target row's rank and tier, if they have one. */
  function AdjustedUser(rows: seq<DC.Ranking>): seq<DC.Ranking>
  {
    match TargetIndex(rows)
    case None => rows
    case Some(p) => Adjusted(rows, rows[p].rank, rows[p].tier)
  }

  /** The first UPDATE, over the user's rows. */
  method ShiftUp(rows: seq<DC.Ranking>, currentRank: int) returns (shifted: seq<DC.Ranking>)
    ensures shifted == Shifted(rows, currentRank)
  {
    shifted := rows;
    for k := 0 to |rows|
      invariant |shifted| == |rows|
      invariant forall j :: 0 <= j < k ==> shifted[j] == rows[j].(rank := ShiftRank(rows[j].rank, currentRank))
      invariant forall j :: k <= j < |rows| ==> shifted[j] == rows[j]
    {
      if shifted[k].rank >= 1 && shifted[k].rank < currentRank {
        shifted := shifted[k := shifted[k].(rank := shifted[k].rank + 1)];
      }
    }
  }

  /** The second UPDATE, over the user's rows. */
  method Promote(rows: seq<DC.Ranking>) returns (promoted: seq<DC.Ranking>)
    ensures promoted == Promoted(rows)
  {
    promoted := rows;
    for k := 0 to |rows|
      invariant |promoted| == |rows|
      invariant forall j :: 0 <= j < k ==>
                  promoted[j] == if rows[j].shopId == TargetShop then rows[j].(rank := 1, tier := GoodTier) else rows[j]
      invariant forall j :: k <= j < |rows| ==> promoted[j] == rows[j]
    {
      if promoted[k].shopId == TargetShop {
        promoted := promoted[k := promoted[k].(rank := 1, tier := GoodTier)];
      }
    }
  }

  /** The transaction of lines 61-103 for one user. */
  method AdjustUser(allUserRankings: seq<DC.Ranking>, currentRank: int, currentTier: int) returns (rows: seq<DC.Ranking>)
    ensures rows == Adjusted(allUserRankings, currentRank, currentTier)
  {
    rows := allUserRankings;
    if currentRank != 1 || currentTier != GoodTier {
      if currentRank > 1 {
        rows := ShiftUp(rows, currentRank);
      }
      rows := Promote(rows);
    }
  }

  /** Lines 44-127: every user with a row for the target shop is adjusted; the others are untouched. */
  method AdjustAll(table: RankingStore.RankingTable)
    modifies table
    ensures table.byUser.Keys == old(table.byUser.Keys)
    ensures forall u :: u in table.byUser ==> table.byUser[u] == AdjustedUser(old(table.byUser)[u])
  {
    ghost var before := table.byUser;
    var pending := table.byUser.Keys;
    while pending != {}
      invariant pending <= before.Keys && table.byUser.Keys == before.Keys
      invariant forall u :: u in pending ==> table.byUser[u] == before[u]
      invariant forall u :: u in before && u !in pending ==> table.byUser[u] == AdjustedUser(before[u])
      decreases |pending|
    {
      var userId := RankingStore.PickUser(pending);
      var rows := table.byUser[userId];
      var target := TargetIndex(rows);
      if target.Some? {
        var ranking := rows[target.value];
        rows := AdjustUser(rows, ranking.rank, ranking.tier);
        table.byUser := table.byUser[userId := rows];
      }
      pending := pending - {userId};
    }
  }

  /** Nothing changes when the target is already rank 1 with tier 2. */
  lemma AlreadyFirstUnchanged(rows: seq<DC.Ranking>)
    requires TargetIndex(rows).Some?
    requires rows[TargetIndex(rows).value].rank == 1 && rows[TargetIndex(rows).value].tier == GoodTier
    ensures AdjustedUser(rows) == rows
  {
  }

  /**
   * When the script acts, the target shop gets rank 1 and tier 2, every other
   * row in [1, currentRank) moves down one rank, and every other row keeps
   * its rank, its tier and its shop.
   */
  lemma AdjustedRows(rows: seq<DC.Ranking>, currentRank: int, currentTier: int)
    requires NeedsMove(currentRank, currentTier)
    ensures var r := Adjusted(rows, currentRank, currentTier);
            |r| == |rows|
            && forall k :: 0 <= k < |r| && rows[k].shopId == TargetShop ==>
                 r[k].rank == 1 && r[k].tier == GoodTier && r[k].shopId == TargetShop && r[k].userId == rows[k].userId
    ensures var r := Adjusted(rows, currentRank, currentTier);
            forall k :: 0 <= k < |r| && rows[k].shopId != TargetShop ==>
              r[k].shopId == rows[k].shopId && r[k].tier == rows[k].tier && r[k].userId == rows[k].userId
              && (1 <= rows[k].rank < currentRank ==> r[k].rank == rows[k].rank + 1)
              && (!(1 <= rows[k].rank < currentRank) ==> r[k].rank == rows[k].rank)
  {
  }

  /** The ranks are a permutation of 1..N: each lies in 1..N and no two are equal. */
  predicate RanksOneToN(rows: seq<DC.Ranking>)
  {
    (forall k :: 0 <= k < |rows| ==> 1 <= rows[k].rank <= |rows|)
    && forall i, j :: 0 <= i < j < |rows| ==> rows[i].rank != rows[j].rank
  }

  /**
   * With one row per shop and ranks forming 1..N, the adjusted ranks still
   * form 1..N, and the other shops keep their order relative to each other.
   */
  lemma {:induction false} AdjustedKeepsPermutation(rows: seq<DC.Ranking>)
    requires RankingStore.UniqueShops(rows) && RanksOneToN(rows)
    ensures RanksOneToN(AdjustedUser(rows))
    ensures var r := AdjustedUser(rows);
            forall i, j :: 0 <= i < |rows| && 0 <= j < |rows| && rows[i].shopId != TargetShop && rows[j].shopId != TargetShop ==>
              (rows[i].rank < rows[j].rank <==> r[i].rank < r[j].rank)
  {
    var t := TargetIndex(rows);
    if t.Some? {
      var p := t.value;
      var c := rows[p].rank;
      var r := AdjustedUser(rows);
      if NeedsMove(c, rows[p].tier) {
        AdjustedRows(rows, c, rows[p].tier);
        forall k | 0 <= k < |rows| && k != p
          ensures rows[k].shopId != TargetShop && rows[k].rank != c
        {
          if k < p {
            assert rows[k].shopId != rows[p].shopId && rows[k].rank != rows[p].rank;
          } else {
            assert rows[p].shopId != rows[k].shopId && rows[p].rank != rows[k].rank;
          }
        }
        forall k | 0 <= k < |r|
          ensures 1 <= r[k].rank <= |r|
        {
        }
        forall i, j | 0 <= i < j < |r|
          ensures r[i].rank != r[j].rank
        {
        }
      }
    }
  }
}
