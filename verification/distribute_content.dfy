/**
 * server/scripts/distributeContent.ts: the dump's TSV lines are parsed, and
 * each user's review entries become rankings: one entry per shop (the one
 * with the latest visit), grouped by tier and ranked from 1 within each tier
 * by visit date, most recent first. Visit dates are milliseconds.
 */
module DistributeContent {
  import opened Wrappers
  import Tsv
  import opened Sorting
  import ImportContent

  /** parseTsvLine (lines 47-72): quoting toggles on each unescaped quote; the same machine as the shared parser. */
  method ParseTsvLine(line: string) returns (fields: seq<string>)
    ensures fields == Tsv.Fields(line)
  {
    fields := [];
    var current: string := [];
    var inQuotes := false;
    var i := 0;
    while i < |line|
      invariant 0 <= i <= |line|
      invariant Tsv.Run(line[i..], fields, current, inQuotes) == Tsv.Fields(line)
    {
      var c := line[i];
      if c == '"' {
        if inQuotes && i + 1 < |line| && line[i + 1] == '"' {
          current := current + ['"'];
          i := i + 1;
        } else {
          inQuotes := !inQuotes;
        }
      } else if c == '\t' && !inQuotes {
        fields := fields + [current];
        current := [];
      } else {
        current := current + [c];
      }
      i := i + 1;
    }
    assert line[i..] == [];
    fields := fields + [current];
  }

  /** parseJsonField (lines 75-85): "[]" is [], "" and "{}" are null, text JSON.parse rejects is null. */
  function ParseJsonField(field: string, isJson: string -> bool): (r: ImportContent.JsonField)
    ensures field == "[]" <==> r == ImportContent.EmptyArray
    ensures field == [] || field == "{}" ==> r == ImportContent.JsonNull
    ensures r.Parsed? <==> field != [] && field != "[]" && field != "{}" && isJson(field)
    ensures r.Parsed? ==> r.raw == field
  {
    if field == [] || field == "[]" || field == "{}" then
      (if field == "[]" then ImportContent.EmptyArray else ImportContent.JsonNull)
    else if isJson(field) then ImportContent.Parsed(field)
    else ImportContent.JsonNull
  }

  /** satisfactionToTier (lines 88-95). */
  function SatisfactionToTier(satisfaction: string): (tier: int)
    ensures 0 <= tier <= 2
    ensures tier == 2 <==> satisfaction == "good"
    ensures tier == 0 <==> satisfaction == "bad"
  {
    if satisfaction == "good" then 2
    else if satisfaction == "ok" then 1
    else if satisfaction == "bad" then 0
    else 1
  }

  // ---------------------------------------------------------------- rankings

  datatype Entry = Entry(userId: int, shopId: int, visitDate: int, tier: int)

  datatype Ranking = Ranking(userId: int, shopId: int, rank: int, tier: int)

  /** The position of the shop's entry in the shop map, if it has one. */
  function IndexOfShop(uniq: seq<Entry>, shopId: int): (r: Option<nat>)
    ensures r.Some? ==> r.value < |uniq| && uniq[r.value].shopId == shopId
    ensures r.None? ==> forall k :: 0 <= k < |uniq| ==> uniq[k].shopId != shopId
  {
    if uniq == [] then None
    else if uniq[|uniq| - 1].shopId == shopId then Some(|uniq| - 1)
    else IndexOfShop(uniq[..|uniq| - 1], shopId)
  }

  /**
   * The values of shopMap after the loop of lines 245-251: shops in order of
   * first appearance, each holding its entry with the latest visit date
   * (an equal date does not replace).
   */
  function DedupeLatest(entries: seq<Entry>): (r: seq<Entry>)
    ensures |r| <= |entries|
  {
    if entries == [] then []
    else KeepLatest(DedupeLatest(entries[..|entries| - 1]), entries[|entries| - 1])
  }

  /** One visit of the loop: a new shop is appended, a known one replaced only by a strictly later visit. */
  function KeepLatest(uniq: seq<Entry>, e: Entry): (r: seq<Entry>)
    ensures |uniq| <= |r| <= |uniq| + 1 && |r| >= 1
  {
    var k := IndexOfShop(uniq, e.shopId);
    if k.None? then uniq + [e]
    else if e.visitDate > uniq[k.value].visitDate then uniq[k.value := e]
    else uniq
  }

  /**
   * The rule of one visit, stated on the shops: an unknown shop is appended;
   * a known shop (held once) is left alone unless the new visit is strictly
   * later, and is then replaced at its own position.
   */
  lemma KeepLatestSpec(uniq: seq<Entry>, e: Entry)
    ensures (forall k :: 0 <= k < |uniq| ==> uniq[k].shopId != e.shopId) ==> KeepLatest(uniq, e) == uniq + [e]
    ensures OnePerShop(uniq) ==>
              forall k :: 0 <= k < |uniq| && uniq[k].shopId == e.shopId ==>
                (e.visitDate <= uniq[k].visitDate ==> KeepLatest(uniq, e) == uniq)
                && (e.visitDate > uniq[k].visitDate ==> KeepLatest(uniq, e) == uniq[k := e])
  {
  }

  lemma DedupeSnoc(entries: seq<Entry>, e: Entry)
    ensures DedupeLatest(entries + [e]) == KeepLatest(DedupeLatest(entries), e)
  {
    assert (entries + [e])[..|entries|] == entries;
  }

  predicate OnePerShop(r: seq<Entry>)
  {
    forall i, j :: 0 <= i < j < |r| ==> r[i].shopId != r[j].shopId
  }

  /** No shop appears twice among the kept entries. */
  lemma {:induction false} DedupeOnePerShop(entries: seq<Entry>)
    ensures OnePerShop(DedupeLatest(entries))
  {
    if entries != [] {
      DedupeOnePerShop(entries[..|entries| - 1]);
    }
  }

  /** Every kept entry is one of the input entries. */
  lemma {:induction false} DedupeFromInput(entries: seq<Entry>)
    ensures forall k :: 0 <= k < |DedupeLatest(entries)| ==> DedupeLatest(entries)[k] in entries
  {
    if entries != [] {
      var n := |entries| - 1;
      var init := DedupeLatest(entries[..n]);
      DedupeFromInput(entries[..n]);
      var r := DedupeLatest(entries);
      forall k | 0 <= k < |r|
        ensures r[k] in entries
      {
        if r[k] != entries[n] {
          assert r[k] in init;
          var m :| 0 <= m < |init| && init[m] == r[k];
          assert init[m] in entries[..n];
        }
      }
    }
  }

  /** Every shop of the entries has an entry in r. */
  predicate CoversShops(entries: seq<Entry>, r: seq<Entry>)
  {
    forall i :: 0 <= i < |entries| ==> exists k :: 0 <= k < |r| && r[k].shopId == entries[i].shopId
  }

  /** No entry of a shop is later than the one r holds for it. */
  predicate HoldsLatest(entries: seq<Entry>, r: seq<Entry>)
  {
    forall i, k :: 0 <= i < |entries| && 0 <= k < |r| && entries[i].shopId == r[k].shopId
      ==> entries[i].visitDate <= r[k].visitDate
  }

  lemma KeepLatestCovers(entries: seq<Entry>, uniq: seq<Entry>, e: Entry)
    requires CoversShops(entries, uniq)
    ensures CoversShops(entries + [e], KeepLatest(uniq, e))
  {
    var r := KeepLatest(uniq, e);
    var all := entries + [e];
    var idx := IndexOfShop(uniq, e.shopId);
    assert exists k :: 0 <= k < |r| && r[k].shopId == e.shopId by {
      if idx.None? {
        assert r[|uniq|] == e;
      } else {
        assert r[idx.value].shopId == e.shopId;
      }
    }
    forall i | 0 <= i < |all|
      ensures exists k :: 0 <= k < |r| && r[k].shopId == all[i].shopId
    {
      if i < |entries| {
        assert all[i] == entries[i];
        var k :| 0 <= k < |uniq| && uniq[k].shopId == entries[i].shopId;
        assert r[k].shopId == uniq[k].shopId;
      }
    }
  }

  /** Every shop of the input keeps an entry. */
  lemma {:induction false} DedupeCovers(entries: seq<Entry>)
    ensures CoversShops(entries, DedupeLatest(entries))
  {
    if entries != [] {
      var n := |entries| - 1;
      assert entries == entries[..n] + [entries[n]];
      DedupeCovers(entries[..n]);
      KeepLatestCovers(entries[..n], DedupeLatest(entries[..n]), entries[n]);
    }
  }

  lemma KeepLatestHolds(entries: seq<Entry>, uniq: seq<Entry>, e: Entry)
    requires OnePerShop(uniq) && CoversShops(entries, uniq) && HoldsLatest(entries, uniq)
    ensures HoldsLatest(entries + [e], KeepLatest(uniq, e))
  {
    var r := KeepLatest(uniq, e);
    var all := entries + [e];
    var idx := IndexOfShop(uniq, e.shopId);
    if idx.None? {
      forall i, k | 0 <= i < |all| && 0 <= k < |r| && all[i].shopId == r[k].shopId
        ensures all[i].visitDate <= r[k].visitDate
      {
        if k == |uniq| {
          if i < |entries| {
            assert false;
          }
        } else {
          assert r[k] == uniq[k];
          if i < |entries| {
            assert all[i] == entries[i];
          }
        }
      }
    } else {
      var m := idx.value;
      forall i, k | 0 <= i < |all| && 0 <= k < |r| && all[i].shopId == r[k].shopId
        ensures all[i].visitDate <= r[k].visitDate
      {
        if k != m {
          assert r[k] == uniq[k];
          if i < |entries| {
            assert all[i] == entries[i];
          }
        } else if i < |entries| {
          assert all[i] == entries[i];
        }
      }
    }
  }

  /** The kept entry of a shop has the latest visit date among that shop's entries. */
  lemma {:induction false} DedupeLatestVisit(entries: seq<Entry>)
    ensures HoldsLatest(entries, DedupeLatest(entries))
  {
    if entries != [] {
      var n := |entries| - 1;
      assert entries == entries[..n] + [entries[n]];
      DedupeLatestVisit(entries[..n]);
      DedupeOnePerShop(entries[..n]);
      DedupeCovers(entries[..n]);
      KeepLatestHolds(entries[..n], DedupeLatest(entries[..n]), entries[n]);
    }
  }

  /** The unique entries of one tier, in shop-map order (lines 263-265). */
  function TierGroup(uniq: seq<Entry>, tier: int): (g: seq<Entry>)
    ensures |g| <= |uniq|
    ensures forall k :: 0 <= k < |g| ==> g[k].tier == tier && g[k] in uniq
  {
    if uniq == [] then []
    else
      var init := TierGroup(uniq[..|uniq| - 1], tier);
      var e := uniq[|uniq| - 1];
      if e.tier == tier then init + [e] else init
  }

  /** The comparator of line 272: later visits first. */
  function ByDateDesc(a: Entry, b: Entry): bool
  {
    a.visitDate >= b.visitDate
  }

  lemma ByDateDescTotal()
    ensures TotalPreorder(ByDateDesc)
  {
  }

  /** Lines 275-282: the entries in order with ranks from 1. */
  function Ranked(group: seq<Entry>, tier: int): (r: seq<Ranking>)
    ensures |r| == |group|
    ensures forall k :: 0 <= k < |r| ==> r[k] == Ranking(group[k].userId, group[k].shopId, k + 1, tier)
  {
    seq(|group|, k requires 0 <= k < |group| => Ranking(group[k].userId, group[k].shopId, k + 1, tier))
  }

  function TierRankings(uniq: seq<Entry>, tier: int): seq<Ranking>
  {
    Ranked(SortBy(TierGroup(uniq, tier), ByDateDesc), tier)
  }

  /** What one user contributes to allRankings: tier 2, then 1, then 0. */
  function UserRankings(entries: seq<Entry>): seq<Ranking>
  {
    var uniq := DedupeLatest(entries);
    TierRankings(uniq, 2) + TierRankings(uniq, 1) + TierRankings(uniq, 0)
  }

  /** The body of the per-user loop (lines 235-284). */
  method RankUser(entries: seq<Entry>) returns (rankings: seq<Ranking>)
    ensures rankings == UserRankings(entries)
  {
    var uniq := ShopMap(entries);
    var good, ok, bad := GroupByTier(uniq);
    rankings := [];
    rankings := rankings + Ranked(SortBy(good, ByDateDesc), 2);
    assert rankings == TierRankings(uniq, 2);
    rankings := rankings + Ranked(SortBy(ok, ByDateDesc), 1);
    rankings := rankings + Ranked(SortBy(bad, ByDateDesc), 0);
  }

  /** The shopMap loop (lines 243-251), as the map's values in insertion order. */
  method ShopMap(entries: seq<Entry>) returns (uniq: seq<Entry>)
    ensures uniq == DedupeLatest(entries)
  {
    uniq := [];
    for i := 0 to |entries|
      invariant uniq == DedupeLatest(entries[..i])
    {
      var entry := entries[i];
      assert entries[..i + 1] == entries[..i] + [entry];
      DedupeSnoc(entries[..i], entry);
      var existing := IndexOfShop(uniq, entry.shopId);
      if existing.None? {
        uniq := uniq + [entry];
      } else if entry.visitDate > uniq[existing.value].visitDate {
        uniq := uniq[existing.value := entry];
      }
    }
    assert entries[..|entries|] == entries;
  }

  /** Lines 257-265: each unique entry is pushed onto its tier's list. */
  method GroupByTier(uniq: seq<Entry>) returns (good: seq<Entry>, ok: seq<Entry>, bad: seq<Entry>)
    ensures good == TierGroup(uniq, 2) && ok == TierGroup(uniq, 1) && bad == TierGroup(uniq, 0)
  {
    good, ok, bad := [], [], [];
    for i := 0 to |uniq|
      invariant good == TierGroup(uniq[..i], 2) && ok == TierGroup(uniq[..i], 1) && bad == TierGroup(uniq[..i], 0)
    {
      assert uniq[..i + 1][..i] == uniq[..i];
      var e := uniq[i];
      if e.tier == 2 {
        good := good + [e];
      } else if e.tier == 1 {
        ok := ok + [e];
      } else if e.tier == 0 {
        bad := bad + [e];
      }
    }
    assert uniq[..|uniq|] == uniq;
  }

  /** Within a tier the ranks are 1..k and the visit dates never increase along the ranks. */
  lemma TierRanksRestart(entries: seq<Entry>, tier: int)
    ensures var r := TierRankings(DedupeLatest(entries), tier);
            (forall k :: 0 <= k < |r| ==> r[k].rank == k + 1 && r[k].tier == tier)
    ensures var s := SortBy(TierGroup(DedupeLatest(entries), tier), ByDateDesc);
            forall i, j :: 0 <= i < j < |s| ==> s[i].visitDate >= s[j].visitDate
  {
    ByDateDescTotal();
    SortBySorted(TierGroup(DedupeLatest(entries), tier), ByDateDesc);
  }

  /** Entries whose tier comes from satisfactionToTier fall into exactly one of the three groups. */
  lemma {:induction false} TierGroupsPartition(uniq: seq<Entry>)
    requires forall k :: 0 <= k < |uniq| ==> 0 <= uniq[k].tier <= 2
    ensures |TierGroup(uniq, 2)| + |TierGroup(uniq, 1)| + |TierGroup(uniq, 0)| == |uniq|
  {
    if uniq != [] {
      var n := |uniq| - 1;
      assert forall k :: 0 <= k < n ==> uniq[..n][k] == uniq[k];
      TierGroupsPartition(uniq[..n]);
    }
  }

  /** Every kept shop gets exactly one ranking position: the user's rankings are as many as their distinct shops. */
  lemma UserRankingsCount(entries: seq<Entry>)
    requires forall k :: 0 <= k < |entries| ==> 0 <= entries[k].tier <= 2
    ensures |UserRankings(entries)| == |DedupeLatest(entries)|
  {
    var uniq := DedupeLatest(entries);
    DedupeFromInput(entries);
    forall k | 0 <= k < |uniq|
      ensures 0 <= uniq[k].tier <= 2
    {
      var i :| 0 <= i < |entries| && entries[i] == uniq[k];
    }
    TierGroupsPartition(uniq);
  }

  /** The first two steps of the loop. */
  lemma DedupeTwo(a: Entry, b: Entry)
    ensures DedupeLatest([a, b]) == KeepLatest([a], b)
  {
    DedupeSnoc([], a);
    assert [] + [a] == [a];
    DedupeSnoc([a], b);
    assert [a] + [b] == [a, b];
  }

  /** The third step of the loop. */
  lemma DedupeThree(a: Entry, b: Entry, c: Entry)
    ensures DedupeLatest([a, b, c]) == KeepLatest(DedupeLatest([a, b]), c)
  {
    DedupeSnoc([a, b], c);
    assert [a, b] + [c] == [a, b, c];
  }

  /** A second visit of the same shop on the same or an earlier date keeps the first. */
  lemma DedupeNotLater(a: Entry, b: Entry)
    requires a.shopId == b.shopId && b.visitDate <= a.visitDate
    ensures DedupeLatest([a, b]) == [a]
  {
    DedupeTwo(a, b);
    KeepLatestSpec([a], b);
    assert OnePerShop([a]) && [a][0].shopId == b.shopId;
  }

  /** A later visit of the first shop replaces it in its place, ahead of a second shop. */
  lemma DedupeLaterReplaces(a: Entry, b: Entry, c: Entry)
    requires a.shopId == c.shopId && a.shopId != b.shopId && c.visitDate > a.visitDate
    ensures DedupeLatest([a, b, c]) == [c, b]
  {
    DedupeDifferent(a, b);
    DedupeThree(a, b, c);
    LaterReplacesFirst(a, b, c);
  }

  /** Two visits of different shops are both kept, in order. */
  lemma DedupeDifferent(a: Entry, b: Entry)
    requires a.shopId != b.shopId
    ensures DedupeLatest([a, b]) == [a, b]
  {
    assert KeepLatest([a], b) == [a, b] by {
      assert IndexOfShop([a], b.shopId).None? by {
        assert [a][..0] == [];
      }
    }
    DedupeTwo(a, b);
  }

  lemma LaterReplacesFirst(a: Entry, b: Entry, c: Entry)
    requires a.shopId == c.shopId && a.shopId != b.shopId && c.visitDate > a.visitDate
    ensures KeepLatest([a, b], c) == [c, b]
  {
    KeepLatestSpec([a, b], c);
    assert OnePerShop([a, b]) && [a, b][0].shopId == c.shopId;
    assert [a, b][0 := c] == [c, b];
  }

  /** An equal visit date does not replace the entry already kept. */
  lemma DedupeEqualDateExample()
    ensures DedupeLatest([Entry(1, 7, 100, 2), Entry(1, 7, 100, 0)]) == [Entry(1, 7, 100, 2)]
  {
    DedupeNotLater(Entry(1, 7, 100, 2), Entry(1, 7, 100, 0));
  }

  /** A later visit replaces the kept entry in its place. */
  lemma DedupeLaterDateExample()
    ensures DedupeLatest([Entry(1, 7, 100, 2), Entry(1, 8, 50, 1), Entry(1, 7, 200, 0)])
            == [Entry(1, 7, 200, 0), Entry(1, 8, 50, 1)]
  {
    DedupeLaterReplaces(Entry(1, 7, 100, 2), Entry(1, 8, 50, 1), Entry(1, 7, 200, 0));
  }
}
