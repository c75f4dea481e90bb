/**
 * src/screens/onboarding/ShopMatchConfirm.tsx: the shop names read from the
 * user's screenshots come back matched (or not) to known shops; the user
 * keeps or drops each one, matches the rest by hand, and confirms.
 */
module ShopMatch {
  import opened Wrappers
  import Text
  import OC = OnboardingContext

  /** ShopMatch: the extracted name, whether it matched and the shop it matched. */
  datatype Match = Match(name: string, matched: bool, shop: Option<OC.Shop>)

  /** Whether the dedupe of lines 42-45 counts the entry: matched with a shop. */
  predicate Keyed(m: Match)
  {
    m.matched && m.shop.Some?
  }

  /** The dedupe loop of lines 39-47, with the set of ids seen so far. */
  function Deduped(matches: seq<Match>): (r: (seq<Match>, set<int>))
    ensures |r.0| <= |matches|
  {
    if matches == [] then ([], {})
    else
      var n := |matches| - 1;
      var (init, seen) := Deduped(matches[..n]);
      var m := matches[n];
      if Keyed(m) && m.shop.value.shopId in seen then (init, seen)
      else if Keyed(m) then (init + [m], seen + {m.shop.value.shopId})
      else (init + [m], seen)
  }

  /** The shop id of a keyed entry. */
  function IdOf(m: Match): int
    requires Keyed(m)
  {
    m.shop.value.shopId
  }

  /**
   * The dedupe keeps only entries of the input; it keeps every entry without
   * a matched shop; for each matched shop id it keeps exactly one entry; and
   * the seen set is the set of matched ids.
   */
  /** Some kept entry is matched to the shop with this id. */
  predicate KeptId(kept: seq<Match>, id: int)
  {
    exists j :: 0 <= j < |kept| && Keyed(kept[j]) && IdOf(kept[j]) == id
  }

  /** No two matched entries share a shop id. */
  predicate UniqueIds(kept: seq<Match>)
  {
    forall i, j :: 0 <= i < j < |kept| && Keyed(kept[i]) && Keyed(kept[j]) ==> IdOf(kept[i]) != IdOf(kept[j])
  }

  lemma DedupedSpec(matches: seq<Match>)
    ensures forall k :: 0 <= k < |Deduped(matches).0| ==> Deduped(matches).0[k] in matches
    ensures forall k :: 0 <= k < |matches| && !Keyed(matches[k]) ==> matches[k] in Deduped(matches).0
    ensures forall id :: id in Deduped(matches).1 <==> KeptId(Deduped(matches).0, id)
    ensures forall k :: 0 <= k < |matches| && Keyed(matches[k]) ==> IdOf(matches[k]) in Deduped(matches).1
    ensures UniqueIds(Deduped(matches).0)
  {
    DedupedFromInput(matches);
    DedupedKeepsUnkeyed(matches);
    SeenIsKeptIds(matches);
    AllKeyedSeen(matches);
    KeptIdsUnique(matches);
  }

  lemma {:induction false} DedupedFromInput(matches: seq<Match>)
    ensures forall k :: 0 <= k < |Deduped(matches).0| ==> Deduped(matches).0[k] in matches
  {
    if matches != [] {
      var n := |matches| - 1;
      DedupedFromInput(matches[..n]);
      var init := Deduped(matches[..n]).0;
      var kept := Deduped(matches).0;
      forall k | 0 <= k < |kept|
        ensures kept[k] in matches
      {
        if k < |init| {
          assert kept[k] == init[k] && init[k] in matches[..n];
        }
      }
    }
  }

  lemma {:induction false} DedupedKeepsUnkeyed(matches: seq<Match>)
    ensures forall k :: 0 <= k < |matches| && !Keyed(matches[k]) ==> matches[k] in Deduped(matches).0
  {
    if matches != [] {
      var n := |matches| - 1;
      DedupedKeepsUnkeyed(matches[..n]);
      assert forall k :: 0 <= k < n ==> matches[..n][k] == matches[k];
      assert Deduped(matches[..n]).0 <= Deduped(matches).0;
    }
  }

  lemma {:induction false} SeenIsKeptIds(matches: seq<Match>)
    ensures forall id :: id in Deduped(matches).1 <==> KeptId(Deduped(matches).0, id)
  {
    if matches != [] {
      var n := |matches| - 1;
      SeenIsKeptIds(matches[..n]);
      var init, seen0 := Deduped(matches[..n]).0, Deduped(matches[..n]).1;
      var kept, seen := Deduped(matches).0, Deduped(matches).1;
      var m := matches[n];
      forall id
        ensures id in seen <==> KeptId(kept, id)
      {
        if id in seen0 {
          var j :| 0 <= j < |init| && Keyed(init[j]) && IdOf(init[j]) == id;
          assert kept[j] == init[j];
        }
        if |kept| > |init| && Keyed(m) && id == IdOf(m) {
          assert kept[|init|] == m;
        }
        if KeptId(kept, id) {
          var j :| 0 <= j < |kept| && Keyed(kept[j]) && IdOf(kept[j]) == id;
          if j < |init| {
            assert init[j] == kept[j];
          }
        }
      }
    }
  }

  lemma {:induction false} AllKeyedSeen(matches: seq<Match>)
    ensures forall k :: 0 <= k < |matches| && Keyed(matches[k]) ==> IdOf(matches[k]) in Deduped(matches).1
  {
    if matches != [] {
      var n := |matches| - 1;
      AllKeyedSeen(matches[..n]);
      assert forall k :: 0 <= k < n ==> matches[..n][k] == matches[k];
    }
  }

  lemma {:induction false} KeptIdsUnique(matches: seq<Match>)
    ensures UniqueIds(Deduped(matches).0)
  {
    if matches != [] {
      var n := |matches| - 1;
      KeptIdsUnique(matches[..n]);
      SeenIsKeptIds(matches[..n]);
      var init, seen0 := Deduped(matches[..n]).0, Deduped(matches[..n]).1;
      var kept := Deduped(matches).0;
      forall i, j | 0 <= i < j < |kept| && Keyed(kept[i]) && Keyed(kept[j])
        ensures IdOf(kept[i]) != IdOf(kept[j])
      {
        assert kept[i] == init[i];
        if j < |init| {
          assert kept[j] == init[j];
        } else {
          assert KeptId(init, IdOf(kept[i]));
          assert IdOf(kept[j]) !in seen0;
        }
      }
    }
  }

  /** The entries kept from the first i matches come first, in their order: the dedupe keeps order. */
  lemma {:induction false} DedupedKeepsOrder(matches: seq<Match>, i: nat)
    requires i <= |matches|
    ensures Deduped(matches[..i]).0 <= Deduped(matches).0
  {
    if i < |matches| {
      var n := |matches| - 1;
      assert matches[..n][..i] == matches[..i];
      DedupedKeepsOrder(matches[..n], i);
    } else {
      assert matches[..i] == matches;
    }
  }

  /** The for-of loop of lines 39-47. */
  method DedupeMatches(matches: seq<Match>) returns (dedupedMatches: seq<Match>)
    ensures dedupedMatches == Deduped(matches).0
  {
    var seenShopIds: set<int> := {};
    dedupedMatches := [];
    for i := 0 to |matches|
      invariant (dedupedMatches, seenShopIds) == Deduped(matches[..i])
    {
      assert matches[..i + 1][..i] == matches[..i];
      var m := matches[i];
      if m.matched && m.shop.Some? {
        if m.shop.value.shopId in seenShopIds {
          continue;
        }
        seenShopIds := seenShopIds + {m.shop.value.shopId};
      }
      dedupedMatches := dedupedMatches + [m];
    }
    assert matches[..|matches|] == matches;
  }

  /**
   * A JavaScript Set of indices, kept in insertion order, which is the order
   * in which forEach visits it.
   */
  predicate Distinct(selected: seq<nat>)
  {
    forall i, j :: 0 <= i < j < |selected| ==> selected[i] != selected[j]
  }

  function Remove(selected: seq<nat>, x: nat): (r: seq<nat>)
    ensures forall y :: y in r <==> y in selected && y != x
    ensures Distinct(selected) ==> Distinct(r)
  {
    if selected == [] then []
    else
      var n := |selected| - 1;
      var init := Remove(selected[..n], x);
      assert forall y :: y in selected <==> y in selected[..n] || y == selected[n];
      assert Distinct(selected) ==> selected[n] !in selected[..n];
      if selected[n] == x then init else init + [selected[n]]
  }

  /** `new Set(prev).add(x)`. */
  function Add(selected: seq<nat>, x: nat): (r: seq<nat>)
    ensures forall y :: y in r <==> y in selected || y == x
    ensures Distinct(selected) ==> Distinct(r)
  {
    if x in selected then selected else selected + [x]
  }

  /** toggleSelect (lines 64-71). */
  function Toggle(selected: seq<nat>, index: nat): (r: seq<nat>)
    ensures Distinct(selected) ==> Distinct(r)
  {
    if index in selected then Remove(selected, index) else Add(selected, index)
  }

  /** Toggling flips the membership of that one index; toggling it twice restores the members. */
  lemma ToggleFlipsOne(selected: seq<nat>, index: nat)
    ensures index in Toggle(selected, index) <==> index !in selected
    ensures forall y :: y != index ==> (y in Toggle(selected, index) <==> y in selected)
    ensures forall y :: y in Toggle(Toggle(selected, index), index) <==> y in selected
  {
  }

  /** The indices of the matched entries, in order (lines 52-55). */
  function MatchedIndices(matches: seq<Match>): (r: seq<nat>)
    ensures Distinct(r)
    ensures forall i: nat :: i in r <==> i < |matches| && matches[i].matched
    ensures forall k :: 0 <= k < |r| ==> r[k] < |matches|
  {
    if matches == [] then []
    else
      var n := |matches| - 1;
      var init := MatchedIndices(matches[..n]);
      if matches[n].matched then init + [n] else init
  }

  method InitialSelection(dedupedMatches: seq<Match>) returns (matchedIndices: seq<nat>)
    ensures matchedIndices == MatchedIndices(dedupedMatches)
  {
    matchedIndices := [];
    for i := 0 to |dedupedMatches|
      invariant matchedIndices == MatchedIndices(dedupedMatches[..i])
    {
      assert dedupedMatches[..i + 1][..i] == dedupedMatches[..i];
      if dedupedMatches[i].matched {
        matchedIndices := Add(matchedIndices, i);
      }
    }
    assert dedupedMatches[..|dedupedMatches|] == dedupedMatches;
  }

  /** The match list after a manual match (lines 91-103). */
  function ManualMatched(matches: seq<Match>, matchIndex: int, shop: OC.Shop): (r: seq<Match>)
    ensures |r| == |matches|
    ensures forall i :: 0 <= i < |r| && i != matchIndex ==> r[i] == matches[i]
    ensures 0 <= matchIndex < |r| ==> r[matchIndex] == matches[matchIndex].(matched := true, shop := Some(shop))
  {
    seq(|matches|, i requires 0 <= i < |matches| =>
      if i == matchIndex then matches[i].(matched := true, shop := Some(shop)) else matches[i])
  }

  /** The shops handleConfirm emits (lines 110-123): one per selected index holding a shop, in selection order. */
  function Confirmed(selected: seq<nat>, matches: seq<Match>): (r: seq<OC.Shop>)
    ensures |r| <= |selected|
    ensures forall k :: 0 <= k < |r| ==> exists i :: i in selected && i < |matches| && matches[i].shop == Some(r[k])
    ensures forall i :: i in selected && i < |matches| && matches[i].shop.Some? ==> matches[i].shop.value in r
  {
    if selected == [] then []
    else
      var n := |selected| - 1;
      var init := Confirmed(selected[..n], matches);
      var index := selected[n];
      assert forall i :: i in selected <==> i in selected[..n] || i == index;
      if index < |matches| && matches[index].shop.Some? then init + [matches[index].shop.value] else init
  }

  /** The number of selected indices holding a shop. */
  function CountWithShop(selected: seq<nat>, matches: seq<Match>): nat
  {
    if selected == [] then 0
    else
      var n := |selected| - 1;
      CountWithShop(selected[..n], matches) + (if selected[n] < |matches| && matches[selected[n]].shop.Some? then 1 else 0)
  }

  /** Confirm emits exactly one shop per selected index that has one. */
  lemma {:induction false} ConfirmedCount(selected: seq<nat>, matches: seq<Match>)
    ensures |Confirmed(selected, matches)| == CountWithShop(selected, matches)
  {
    if selected != [] {
      ConfirmedCount(selected[..|selected| - 1], matches);
    }
  }

  class ShopMatchState {
    var matches: seq<Match>
    var selected: seq<nat>
    var loading: bool
    var searchQuery: string
    var searchResults: seq<OC.Shop>
    var searchingFor: Option<string>

    /** The initial state of lines 18-24. */
    constructor()
      ensures matches == [] && selected == [] && loading && searchQuery == [] && searchResults == [] && searchingFor.None?
    {
      matches := [];
      selected := [];
      loading := true;
      searchQuery := [];
      searchResults := [];
      searchingFor := None;
    }

    /** matchShops (lines 34-62) once the service has answered; `None` when it threw. */
    method MatchShops(result: Option<seq<Match>>)
      modifies this
      ensures !loading
      ensures result.None? ==> matches == old(matches) && selected == old(selected)
      ensures result.Some? ==> matches == Deduped(result.value).0 && selected == MatchedIndices(matches)
    {
      if result.Some? {
        var dedupedMatches := DedupeMatches(result.value);
        matches := dedupedMatches;
        var matchedIndices := InitialSelection(dedupedMatches);
        selected := matchedIndices;
      }
      loading := false;
    }

    method ToggleSelect(index: nat)
      modifies this
      ensures selected == Toggle(old(selected), index) && matches == old(matches)
    {
      if index in selected {
        selected := Remove(selected, index);
      } else {
        selected := Add(selected, index);
      }
    }

    /** handleManualMatch (lines 90-108). */
    method HandleManualMatch(matchIndex: nat, shop: OC.Shop)
      modifies this
      ensures matches == ManualMatched(old(matches), matchIndex, shop)
      ensures selected == Add(old(selected), matchIndex)
      ensures searchingFor.None? && searchQuery == [] && searchResults == []
    {
      matches := ManualMatched(matches, matchIndex, shop);
      selected := Add(selected, matchIndex);
      searchingFor := None;
      searchQuery := [];
      searchResults := [];
    }

    /**
     * handleSearch (lines 73-88): a blank query sends nothing; otherwise the
     * search is sent and an ok reply (`Some`) replaces the results.
     */
    method HandleSearch(reply: Option<seq<OC.Shop>>) returns (sent: bool)
      modifies this
      ensures sent <==> !Text.IsBlank(searchQuery)
      ensures searchResults == if sent && reply.Some? then reply.value else old(searchResults)
      ensures searchQuery == old(searchQuery) && matches == old(matches) && selected == old(selected)
    {
      if |Text.Trim(searchQuery)| == 0 {
        return false;
      }
      if reply.Some? {
        searchResults := reply.value;
      }
      return true;
    }

    /** handleConfirm (lines 110-126): the shops handed to the onboarding state. */
    method HandleConfirm() returns (shops: seq<OC.Shop>)
      ensures shops == Confirmed(selected, matches)
    {
      shops := [];
      for k := 0 to |selected|
        invariant shops == Confirmed(selected[..k], matches)
      {
        assert selected[..k + 1][..k] == selected[..k];
        var index := selected[k];
        if index < |matches| && matches[index].shop.Some? {
          shops := shops + [matches[index].shop.value];
        }
      }
      assert selected[..|selected|] == selected;
    }
  }
}
