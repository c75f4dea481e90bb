/**
 * src/components/discovery/DiscoveryFilters.tsx: the food-kind chips above
 * the discovery map. At most one chip is selected; tapping the selected chip
 * clears the selection and tapping another one replaces it.
 */
module DiscoveryFilters {
  /** The chips, most frequent kind first (lines 12-25). */
  const FixedFoodKinds: seq<string> := ["일식", "고기/구이", "이탈리안", "한식", "오마카세", "바/주점", "양식", "중식", "해산물", "스시/회", "카페", "스테이크"]

  /** toggleFilter (lines 32-40): the selection handed to onFilterChange. */
  function Toggle(selected: seq<string>, filter: string): (r: seq<string>)
    ensures filter in selected ==> r == []
    ensures filter !in selected ==> r == [filter]
    ensures |r| <= 1
  {
    if filter in selected then [] else [filter]
  }

  /** Whatever was selected before, at most one filter is selected after, and it is the one tapped. */
  lemma ToggleSingle(selected: seq<string>, filter: string)
    ensures forall f :: f in Toggle(selected, filter) ==> f == filter
    ensures filter in Toggle(selected, filter) <==> filter !in selected
  {
  }

  /**
   * Toggling twice restores a one-filter selection: tapping the selected chip
   * twice, or tapping another chip and then the first one again.
   */
  lemma ToggleTwice(filter: string, other: string)
    ensures Toggle(Toggle([filter], filter), filter) == [filter]
    ensures Toggle(Toggle([filter], other), filter) == [filter]
    ensures Toggle(Toggle([], filter), filter) == []
  {
    assert filter in [filter];
    assert other in [other];
    if other != filter {
      assert filter !in [other];
    }
  }
}
