/**
 * src/hooks/useRecentSearches.ts: the recent search keywords, newest first,
 * at most ten, without repeats, mirrored to local storage.
 */
module RecentSearches {
  import opened Wrappers
  import Text

  const MaxItems := 10

  /** `list.filter(item => item !== keyword)`. */
  function Without(list: seq<string>, keyword: string): (r: seq<string>)
    ensures |r| <= |list|
    ensures forall y :: y in r <==> y in list && y != keyword
  {
    if list == [] then []
    else
      var n := |list| - 1;
      var init := Without(list[..n], keyword);
      assert forall y :: y in list <==> y in list[..n] || y == list[n];
      if list[n] != keyword then init + [list[n]] else init
  }

  /** Filtering a concatenation filters each part in place: the other entries keep their order. */
  lemma {:induction false} WithoutAppend(a: seq<string>, b: seq<string>, keyword: string)
    ensures Without(a + b, keyword) == Without(a, keyword) + Without(b, keyword)
  {
    if b == [] {
      assert a + b == a;
    } else {
      var n := |b| - 1;
      assert (a + b)[..|a + b| - 1] == a + b[..n];
      WithoutAppend(a, b[..n], keyword);
    }
  }

  predicate NoDuplicates(list: seq<string>)
  {
    forall i, j :: 0 <= i < j < |list| ==> list[i] != list[j]
  }

  lemma {:induction false} WithoutNoDuplicates(list: seq<string>, keyword: string)
    requires NoDuplicates(list)
    ensures NoDuplicates(Without(list, keyword))
  {
    if list != [] {
      var n := |list| - 1;
      WithoutNoDuplicates(list[..n], keyword);
      assert list[n] !in list[..n];
    }
  }

  /** addSearch (lines 20-29): the list it leaves. */
  function Added(list: seq<string>, keyword: string): (r: seq<string>)
    ensures |Text.Trim(keyword)| == 0 ==> r == list
    ensures |Text.Trim(keyword)| > 0 ==>
              1 <= |r| <= MaxItems && r[0] == Text.Trim(keyword)
              && forall k :: 0 <= k < |r| ==> r[k] == Text.Trim(keyword) || r[k] in list
  {
    if keyword == [] || |Text.Trim(keyword)| == 0 then list
    else
      var trimmed := Text.Trim(keyword);
      Text.Take([trimmed] + Without(list, trimmed), MaxItems)
  }

  /** removeSearch (lines 37-39). */
  function Removed(list: seq<string>, keyword: string): seq<string>
  {
    Without(list, keyword)
  }

  /**
   * A blank keyword changes nothing. Otherwise the trimmed keyword comes
   * first and nowhere else, followed by the other entries in their old order,
   * at most ten in all; a list without repeats stays without repeats.
   */
  lemma AddedSpec(list: seq<string>, keyword: string)
    ensures Text.IsBlank(keyword) ==> Added(list, keyword) == list
    ensures !Text.IsBlank(keyword) ==>
              var r := Added(list, keyword);
              var t := Text.Trim(keyword);
              |r| >= 1 && |r| <= MaxItems && r[0] == t
              && t !in r[1..]
              && r[1..] == Without(list, t)[..|r| - 1]
              && (|Without(list, t)| < MaxItems ==> |r| == |Without(list, t)| + 1)
    ensures NoDuplicates(list) ==> NoDuplicates(Added(list, keyword))
  {
    if !Text.IsBlank(keyword) {
      var t := Text.Trim(keyword);
      var w := Without(list, t);
      var r := Added(list, keyword);
      assert r == ([t] + w)[..|r|];
      assert r[1..] == w[..|r| - 1];
      if NoDuplicates(list) {
        WithoutNoDuplicates(list, t);
        forall i, j | 0 <= i < j < |r|
          ensures r[i] != r[j]
        {
          if i == 0 {
            assert r[j] == w[j - 1] && w[j - 1] in w;
          } else {
            assert r[i] == w[i - 1] && r[j] == w[j - 1];
          }
        }
      }
    }
  }

  /** removeSearch drops exactly the equal entries; the rest keep their order. */
  lemma RemovedSpec(list: seq<string>, keyword: string, i: nat)
    requires i <= |list|
    ensures keyword !in Removed(list, keyword)
    ensures forall y :: y != keyword ==> (y in Removed(list, keyword) <==> y in list)
    ensures Removed(list, keyword) == Removed(list[..i], keyword) + Removed(list[i..], keyword)
  {
    assert list == list[..i] + list[i..];
    WithoutAppend(list[..i], list[i..], keyword);
  }

  /** The hook's state and what it keeps in local storage under mimy_recent_searches. */
  class RecentSearchList {
    var recentSearches: seq<string>
    var stored: Option<seq<string>>

    constructor(stored: Option<seq<string>>)
      ensures recentSearches == [] && this.stored == stored
    {
      recentSearches := [];
      this.stored := stored;
    }

    /** The mount effect of lines 9-18: a stored list is loaded; the parsed value is a parameter. */
    method Load()
      modifies this
      ensures stored == old(stored)
      ensures recentSearches == if stored.Some? then stored.value else old(recentSearches)
    {
      if stored.Some? {
        recentSearches := stored.value;
      }
    }

    method AddSearch(keyword: string)
      modifies this
      ensures recentSearches == Added(old(recentSearches), keyword)
      ensures Text.IsBlank(keyword) ==> stored == old(stored)
      ensures !Text.IsBlank(keyword) ==> stored == Some(recentSearches)
    {
      if |keyword| == 0 || |Text.Trim(keyword)| == 0 {
        return;
      }
      var trimmed := Text.Trim(keyword);
      var filtered := Without(recentSearches, trimmed);
      var newList := Text.Take([trimmed] + filtered, MaxItems);
      recentSearches := newList;
      stored := Some(newList);
    }

    method RemoveSearch(keyword: string)
      modifies this
      ensures recentSearches == Removed(old(recentSearches), keyword) && stored == Some(recentSearches)
    {
      var newList := Without(recentSearches, keyword);
      recentSearches := newList;
      stored := Some(newList);
    }

    /** clearSearches (lines 47-54): the list is emptied and the stored copy removed. */
    method ClearSearches()
      modifies this
      ensures recentSearches == [] && stored.None?
    {
      recentSearches := [];
      stored := None;
    }
  }
}
