/**
 * server/routes/relay.ts, GET /shops: a batch of shops to rate in relay mode,
 * mixed from three sources (nearby, saved, a random global pick). The three
 * query results, the parsed query string and the match scores are inputs.
 */
module Relay {
  import opened Wrappers
  import opened Sorting

  datatype Source = Nearby | Saved | Global

  /** A row of one of the three queries (lines 57-155). */
  datatype ShopRow = ShopRow(id: int, source: Source)

  /** A row of the response (lines 196-207); the score is null when none was computed. */
  datatype ShopOut = ShopOut(id: int, source: Source, score: Option<real>)

  datatype Response = BadRequest | ServerError | Shops(shops: seq<ShopOut>, hasMore: bool)

  /** ceil(b / d) for d > 0, as Math.ceil(b * 0.5) and Math.ceil(b * 0.25) compute it. */
  function CeilDiv(b: int, d: int): (q: int)
    requires d > 0
    ensures d * q >= b && d * (q - 1) < b
  {
    -((-b) / d)
  }

  /** The split of lines 49-51. */
  function NearbyLimit(batchSize: int): int { CeilDiv(batchSize, 2) }
  function SavedLimit(batchSize: int): int { CeilDiv(batchSize, 4) }
  function GlobalLimit(batchSize: int): int { CeilDiv(batchSize, 4) }

  /** `parseInt(x) || d`: an unparsable or zero value gives the default. */
  function OrDefault(parsed: Option<int>, d: int): (v: int)
    ensures parsed.Some? && parsed.value != 0 ==> v == parsed.value
    ensures parsed.None? || parsed.value == 0 ==> v == d
  {
    if parsed.Some? && parsed.value != 0 then parsed.value else d
  }

  /** Array.prototype.slice(0, end): a negative end counts back from the length. */
  function SliceTo<T>(s: seq<T>, end: int): (r: seq<T>)
    ensures end >= 0 ==> r == s[..if end <= |s| then end else |s|]
    ensures end < 0 ==> r == s[..if |s| + end >= 0 then |s| + end else 0]
  {
    if end >= 0 then s[..if end <= |s| then end else |s|]
    else s[..if |s| + end >= 0 then |s| + end else 0]
  }

  function Ids(rows: seq<ShopRow>): (ids: set<int>)
    ensures forall k :: 0 <= k < |rows| ==> rows[k].id in ids
    ensures forall id :: id in ids ==> exists k :: 0 <= k < |rows| && rows[k].id == id
  {
    set k | 0 <= k < |rows| :: rows[k].id
  }

  /** The filter of line 178: rows whose id is not used, in order. */
  function Unused(rows: seq<ShopRow>, used: set<int>): (r: seq<ShopRow>)
    ensures |r| <= |rows|
    ensures forall k :: 0 <= k < |r| ==> r[k].id !in used && r[k] in rows
  {
    if rows == [] then []
    else
      var n := |rows| - 1;
      var init := Unused(rows[..n], used);
      assert forall k :: 0 <= k < |init| ==> init[k] in rows;
      if rows[n].id in used then init else init + [rows[n]]
  }

  /** The global rows kept (lines 173-179). */
  function UniqueGlobal(nearbyTrimmed: seq<ShopRow>, savedRows: seq<ShopRow>, globalRows: seq<ShopRow>, globalLimit: int): (r: seq<ShopRow>)
    ensures forall k :: 0 <= k < |r| ==> r[k] in globalRows && r[k].id !in Ids(nearbyTrimmed) && r[k].id !in Ids(savedRows)
    ensures globalLimit >= 0 ==> |r| <= globalLimit
  {
    SliceTo(Unused(globalRows, Ids(nearbyTrimmed) + Ids(savedRows)), globalLimit)
  }

  /** The comparator of lines 210-216 as "may come first": saved first, then the higher score, null as -1. */
  function SavedThenScore(a: ShopOut, b: ShopOut): bool
  {
    (a.source == Saved && b.source != Saved)
    || ((a.source == Saved) == (b.source == Saved) && a.score.GetOr(-1.0) >= b.score.GetOr(-1.0))
  }

  lemma SavedThenScoreTotal()
    ensures TotalPreorder(SavedThenScore)
  {
  }

  function Out(row: ShopRow, scores: map<int, real>): ShopOut
  {
    ShopOut(row.id, row.source, if row.id in scores then Some(scores[row.id]) else None)
  }

  function OutAll(rows: seq<ShopRow>, scores: map<int, real>): (r: seq<ShopOut>)
    ensures |r| == |rows|
    ensures forall k :: 0 <= k < |r| ==> r[k] == Out(rows[k], scores)
  {
    seq(|rows|, k requires 0 <= k < |rows| => Out(rows[k], scores))
  }

  /** The rows merged in the order of line 182. */
  function Merged(nearbyRows: seq<ShopRow>, savedRows: seq<ShopRow>, globalRows: seq<ShopRow>, batchSize: int): (r: seq<ShopRow>)
    ensures |r| >= |savedRows| && r[..|savedRows|] == savedRows
    ensures forall k :: 0 <= k < |r| ==> r[k] in savedRows || r[k] in nearbyRows || r[k] in globalRows
  {
    var nearbyTrimmed := SliceTo(nearbyRows, NearbyLimit(batchSize));
    savedRows + nearbyTrimmed + UniqueGlobal(nearbyTrimmed, savedRows, globalRows, GlobalLimit(batchSize))
  }

  /** Whether the database refuses a LIMIT or OFFSET of the three queries for being negative. */
  predicate QueryRejected(batchSize: int, offset: int)
  {
    NearbyLimit(batchSize) + 1 < 0 || SavedLimit(batchSize) < 0 || GlobalLimit(batchSize) * 2 < 0 || offset < 0
  }

  /** The response of the handler (lines 21-227). */
  function Respond(latFinite: bool, lonFinite: bool, batchParam: Option<int>, offsetParam: Option<int>,
                   nearbyRows: seq<ShopRow>, savedRows: seq<ShopRow>, globalRows: seq<ShopRow>,
                   scores: map<int, real>): (r: Response)
    ensures r == BadRequest <==> !latFinite || !lonFinite
    ensures r == ServerError <==> latFinite && lonFinite && QueryRejected(OrDefault(batchParam, 20), OrDefault(offsetParam, 0))
    ensures r.Shops? ==> multiset(r.shops) == multiset(OutAll(Merged(nearbyRows, savedRows, globalRows, OrDefault(batchParam, 20)), scores))
  {
    var batchSize := OrDefault(batchParam, 20);
    var offset := OrDefault(offsetParam, 0);
    if !latFinite || !lonFinite then BadRequest
    else if QueryRejected(batchSize, offset) then ServerError
    else
      var nearbyTrimmed := SliceTo(nearbyRows, NearbyLimit(batchSize));
      var uniqueGlobal := UniqueGlobal(nearbyTrimmed, savedRows, globalRows, GlobalLimit(batchSize));
      var allRows := Merged(nearbyRows, savedRows, globalRows, batchSize);
      if allRows == [] then Shops([], false)
      else Shops(SortBy(OutAll(allRows, scores), SavedThenScore), |nearbyRows| > NearbyLimit(batchSize) || |uniqueGlobal| > 0)
  }

  /** The dedupe of lines 173-179, with the set of used ids built first. */
  method SelectGlobal(nearbyTrimmed: seq<ShopRow>, savedRows: seq<ShopRow>, globalRows: seq<ShopRow>, globalLimit: int)
    returns (uniqueGlobalRows: seq<ShopRow>)
    ensures uniqueGlobalRows == UniqueGlobal(nearbyTrimmed, savedRows, globalRows, globalLimit)
  {
    var usedIds: set<int> := {};
    for k := 0 to |nearbyTrimmed|
      invariant usedIds == Ids(nearbyTrimmed[..k])
    {
      assert nearbyTrimmed[..k + 1] == nearbyTrimmed[..k] + [nearbyTrimmed[k]];
      usedIds := usedIds + {nearbyTrimmed[k].id};
    }
    assert nearbyTrimmed[..|nearbyTrimmed|] == nearbyTrimmed;
    for k := 0 to |savedRows|
      invariant usedIds == Ids(nearbyTrimmed) + Ids(savedRows[..k])
    {
      assert savedRows[..k + 1] == savedRows[..k] + [savedRows[k]];
      usedIds := usedIds + {savedRows[k].id};
    }
    assert savedRows[..|savedRows|] == savedRows;
    var filtered: seq<ShopRow> := [];
    for k := 0 to |globalRows|
      invariant filtered == Unused(globalRows[..k], usedIds)
    {
      assert globalRows[..k + 1][..k] == globalRows[..k];
      if globalRows[k].id !in usedIds {
        filtered := filtered + [globalRows[k]];
      }
    }
    assert globalRows[..|globalRows|] == globalRows;
    uniqueGlobalRows := SliceTo(filtered, globalLimit);
  }

  /** The handler, step by step. */
  method GetShops(latFinite: bool, lonFinite: bool, batchParam: Option<int>, offsetParam: Option<int>,
                  nearbyRows: seq<ShopRow>, savedRows: seq<ShopRow>, globalRows: seq<ShopRow>,
                  scores: map<int, real>) returns (response: Response)
    ensures response == Respond(latFinite, lonFinite, batchParam, offsetParam, nearbyRows, savedRows, globalRows, scores)
  {
    var batchSize := OrDefault(batchParam, 20);
    var offset := OrDefault(offsetParam, 0);
    if !latFinite || !lonFinite {
      return BadRequest;
    }
    var nearbyLimit := CeilDiv(batchSize, 2);
    var savedLimit := CeilDiv(batchSize, 4);
    var globalLimit := CeilDiv(batchSize, 4);
    assert nearbyLimit == NearbyLimit(batchSize) && savedLimit == SavedLimit(batchSize) && globalLimit == GlobalLimit(batchSize);
    if nearbyLimit + 1 < 0 || savedLimit < 0 || globalLimit * 2 < 0 || offset < 0 {
      assert QueryRejected(batchSize, offset);
      return ServerError;
    }
    assert !QueryRejected(batchSize, offset);
    var hasMoreNearby := |nearbyRows| > nearbyLimit;
    var nearbyTrimmed := SliceTo(nearbyRows, nearbyLimit);
    var uniqueGlobalRows := SelectGlobal(nearbyTrimmed, savedRows, globalRows, globalLimit);
    var allRows := savedRows + nearbyTrimmed + uniqueGlobalRows;
    assert allRows == Merged(nearbyRows, savedRows, globalRows, batchSize);
    if |allRows| == 0 {
      return Shops([], false);
    }
    var shopsData := OutAll(allRows, scores);
    shopsData := SortBy(shopsData, SavedThenScore);
    response := Shops(shopsData, hasMoreNearby || |uniqueGlobalRows| > 0);
  }

  /** The split is ceil(b/2), ceil(b/4), ceil(b/4); for the default of 20 it is 10, 5 and 5. */
  lemma LimitsSpec(batchSize: int)
    ensures 2 * NearbyLimit(batchSize) >= batchSize > 2 * (NearbyLimit(batchSize) - 1)
    ensures 4 * SavedLimit(batchSize) >= batchSize > 4 * (SavedLimit(batchSize) - 1)
    ensures GlobalLimit(batchSize) == SavedLimit(batchSize)
    ensures NearbyLimit(20) == 10 && SavedLimit(20) == 5
  {
  }

  /** A location that is not a finite number is rejected before anything else. */
  lemma NonFiniteRejected(latFinite: bool, lonFinite: bool, batchParam: Option<int>, offsetParam: Option<int>,
                          nearbyRows: seq<ShopRow>, savedRows: seq<ShopRow>, globalRows: seq<ShopRow>, scores: map<int, real>)
    ensures Respond(latFinite, lonFinite, batchParam, offsetParam, nearbyRows, savedRows, globalRows, scores) == BadRequest
            <==> !latFinite || !lonFinite
  {
  }

  /**
   * The global rows kept use no id of a nearby or saved row, come from the
   * global query, and number at most the global limit.
   */
  lemma UniqueGlobalSpec(nearbyTrimmed: seq<ShopRow>, savedRows: seq<ShopRow>, globalRows: seq<ShopRow>, globalLimit: nat)
    ensures var g := UniqueGlobal(nearbyTrimmed, savedRows, globalRows, globalLimit);
            |g| <= globalLimit
            && forall k :: 0 <= k < |g| ==>
                 (g[k] in globalRows
                  && (forall j :: 0 <= j < |nearbyTrimmed| ==> nearbyTrimmed[j].id != g[k].id)
                  && (forall j :: 0 <= j < |savedRows| ==> savedRows[j].id != g[k].id))
  {
    var used := Ids(nearbyTrimmed) + Ids(savedRows);
    var u := Unused(globalRows, used);
    var g := UniqueGlobal(nearbyTrimmed, savedRows, globalRows, globalLimit);
    forall k | 0 <= k < |g|
      ensures g[k] in globalRows && g[k].id !in used
    {
      assert g[k] == u[k];
    }
  }

  /**
   * A successful response lists the merged rows with saved shops first and,
   * within saved and within the rest, scores that never increase (null as -1);
   * nothing is added or lost.
   */
  lemma ResponseOrder(latFinite: bool, lonFinite: bool, batchParam: Option<int>, offsetParam: Option<int>,
                      nearbyRows: seq<ShopRow>, savedRows: seq<ShopRow>, globalRows: seq<ShopRow>, scores: map<int, real>)
    requires Respond(latFinite, lonFinite, batchParam, offsetParam, nearbyRows, savedRows, globalRows, scores).Shops?
    ensures var r := Respond(latFinite, lonFinite, batchParam, offsetParam, nearbyRows, savedRows, globalRows, scores);
            var all := Merged(nearbyRows, savedRows, globalRows, OrDefault(batchParam, 20));
            multiset(r.shops) == multiset(OutAll(all, scores))
            && (forall i, j :: 0 <= i < j < |r.shops| && r.shops[j].source == Saved ==> r.shops[i].source == Saved)
            && (forall i, j :: 0 <= i < j < |r.shops| && (r.shops[i].source == Saved) == (r.shops[j].source == Saved) ==>
                  r.shops[i].score.GetOr(-1.0) >= r.shops[j].score.GetOr(-1.0))
  {
    var all := Merged(nearbyRows, savedRows, globalRows, OrDefault(batchParam, 20));
    SavedThenScoreTotal();
    SortBySorted(OutAll(all, scores), SavedThenScore);
  }

  /** has_more is false for an empty response, and otherwise says whether nearby overflowed or a global row was kept. */
  lemma HasMoreSpec(latFinite: bool, lonFinite: bool, batchParam: Option<int>, offsetParam: Option<int>,
                    nearbyRows: seq<ShopRow>, savedRows: seq<ShopRow>, globalRows: seq<ShopRow>, scores: map<int, real>)
    requires Respond(latFinite, lonFinite, batchParam, offsetParam, nearbyRows, savedRows, globalRows, scores).Shops?
    ensures var r := Respond(latFinite, lonFinite, batchParam, offsetParam, nearbyRows, savedRows, globalRows, scores);
            var b := OrDefault(batchParam, 20);
            var g := UniqueGlobal(SliceTo(nearbyRows, NearbyLimit(b)), savedRows, globalRows, GlobalLimit(b));
            (r.shops == [] ==> !r.hasMore)
            && (r.shops != [] ==> (r.hasMore <==> |nearbyRows| > NearbyLimit(b) || |g| > 0))
  {
  }
}
