/**
 * src/context/OnboardingContext.tsx: the state shared by the onboarding
 * screens. Every setter returns a copy with one group of fields replaced;
 * addRating keeps one rating per shop, the latest last.
 */
module OnboardingContext {
  import opened Wrappers

  datatype Satisfaction = Good | Ok | Bad

  /** OnboardingShop (lines 4-10). */
  datatype Shop = Shop(shopId: int, name: string, foodKind: Option<string>, thumbnail: Option<string>, addressFull: Option<string>)

  /** OnboardingRating (lines 12-16). */
  datatype Rating = Rating(shopId: int, satisfaction: Satisfaction, shop: Shop)

  /** The taste analysis result; its contents belong to the analysis service and are kept as text. */
  datatype Analysis = Analysis(summary: string)
  datatype TasteType = TasteType(fullType: string, baseCode: string, subtype: string)
  datatype TasteProfile = TasteProfile(name: string, tagline: string)

  /** OnboardingState (lines 18-33). */
  datatype State = State(
    extractedNames: seq<string>,
    confirmedShops: seq<Shop>,
    ratings: seq<Rating>,
    analysis: Option<Analysis>,
    shareCode: Option<string>,
    tasteType: Option<TasteType>,
    tasteProfile: Option<TasteProfile>)

  /** initialState (lines 46-54). */
  const Initial := State([], [], [], None, None, None, None)

  /** At most one rating per shop. */
  predicate UniqueShops(ratings: seq<Rating>)
  {
    forall i, j :: 0 <= i < j < |ratings| ==> ratings[i].shopId != ratings[j].shopId
  }

  /** `ratings.filter(r => r.shopId !== shopId)` of line 70. */
  function WithoutShop(ratings: seq<Rating>, shopId: int): (r: seq<Rating>)
    ensures |r| <= |ratings|
    ensures forall k :: 0 <= k < |r| ==> r[k].shopId != shopId && r[k] in ratings
    ensures forall k :: 0 <= k < |ratings| && ratings[k].shopId != shopId ==> ratings[k] in r
  {
    if ratings == [] then []
    else
      var n := |ratings| - 1;
      var init := WithoutShop(ratings[..n], shopId);
      assert forall k :: 0 <= k < n ==> ratings[..n][k] == ratings[k];
      if ratings[n].shopId != shopId then init + [ratings[n]] else init
  }

  /** setExtractedNames (lines 59-61). */
  function SetExtractedNames(s: State, names: seq<string>): State
  {
    s.(extractedNames := names)
  }

  /** setConfirmedShops (lines 63-65). */
  function SetConfirmedShops(s: State, shops: seq<Shop>): State
  {
    s.(confirmedShops := shops)
  }

  /** addRating (lines 67-72). */
  function AddRating(s: State, rating: Rating): (r: State)
    ensures |r.ratings| >= 1 && r.ratings[|r.ratings| - 1] == rating
    ensures forall k :: 0 <= k < |r.ratings| - 1 ==> r.ratings[k].shopId != rating.shopId && r.ratings[k] in s.ratings
    ensures forall k :: 0 <= k < |s.ratings| && s.ratings[k].shopId != rating.shopId ==> s.ratings[k] in r.ratings
    ensures r.(ratings := s.ratings) == s
  {
    s.(ratings := WithoutShop(s.ratings, rating.shopId) + [rating])
  }

  /** setRatings (lines 74-76). */
  function SetRatings(s: State, ratings: seq<Rating>): State
  {
    s.(ratings := ratings)
  }

  /** setAnalysisResult (lines 78-85). */
  function SetAnalysisResult(s: State, analysis: Analysis, shareCode: string, tasteType: Option<TasteType>, tasteProfile: Option<TasteProfile>): State
  {
    s.(analysis := Some(analysis), shareCode := Some(shareCode), tasteType := tasteType, tasteProfile := tasteProfile)
  }

  /** reset (lines 87-89). */
  function Reset(s: State): State
  {
    Initial
  }

  /** The ratings with a given shop id, counted. */
  function CountShop(ratings: seq<Rating>, shopId: int): nat
  {
    if ratings == [] then 0
    else CountShop(ratings[..|ratings| - 1], shopId) + (if ratings[|ratings| - 1].shopId == shopId then 1 else 0)
  }

  lemma {:induction false} WithoutShopLength(ratings: seq<Rating>, shopId: int)
    ensures |WithoutShop(ratings, shopId)| == |ratings| - CountShop(ratings, shopId)
  {
    if ratings != [] {
      WithoutShopLength(ratings[..|ratings| - 1], shopId);
    }
  }

  lemma {:induction false} CountShopUnique(ratings: seq<Rating>, shopId: int)
    requires UniqueShops(ratings)
    ensures CountShop(ratings, shopId) == (if exists k :: 0 <= k < |ratings| && ratings[k].shopId == shopId then 1 else 0)
  {
    if ratings != [] {
      var n := |ratings| - 1;
      CountShopUnique(ratings[..n], shopId);
      if ratings[n].shopId == shopId {
        assert forall k :: 0 <= k < n ==> ratings[..n][k].shopId != shopId;
      } else if exists k :: 0 <= k < |ratings| && ratings[k].shopId == shopId {
        var k :| 0 <= k < |ratings| && ratings[k].shopId == shopId;
        assert ratings[..n][k].shopId == shopId;
      }
    }
  }

  lemma {:induction false} WithoutShopUnique(ratings: seq<Rating>, shopId: int)
    requires UniqueShops(ratings)
    ensures UniqueShops(WithoutShop(ratings, shopId))
  {
    if ratings != [] {
      var n := |ratings| - 1;
      WithoutShopUnique(ratings[..n], shopId);
      var init := WithoutShop(ratings[..n], shopId);
      if ratings[n].shopId != shopId {
        forall k | 0 <= k < |init|
          ensures init[k].shopId != ratings[n].shopId
        {
          var j :| 0 <= j < n && ratings[..n][j] == init[k];
        }
      }
    }
  }

  /**
   * addRating leaves the new rating last and no other rating for its shop;
   * it keeps every rating of the other shops; and from ratings with one per
   * shop, the list stays one per shop and grows by one exactly when the shop
   * was new.
   */
  lemma AddRatingSpec(s: State, rating: Rating)
    ensures var r := AddRating(s, rating).ratings;
            |r| > 0 && r[|r| - 1] == rating
            && (forall k :: 0 <= k < |r| - 1 ==> r[k].shopId != rating.shopId)
            && (forall k :: 0 <= k < |s.ratings| && s.ratings[k].shopId != rating.shopId ==> s.ratings[k] in r)
    ensures UniqueShops(s.ratings) ==>
              var r := AddRating(s, rating).ratings;
              UniqueShops(r)
              && (|r| == |s.ratings| + 1 <==> forall k :: 0 <= k < |s.ratings| ==> s.ratings[k].shopId != rating.shopId)
              && (|r| == |s.ratings| <==> exists k :: 0 <= k < |s.ratings| && s.ratings[k].shopId == rating.shopId)
  {
    var r := AddRating(s, rating).ratings;
    var w := WithoutShop(s.ratings, rating.shopId);
    assert r[..|r| - 1] == w;
    if UniqueShops(s.ratings) {
      WithoutShopUnique(s.ratings, rating.shopId);
      WithoutShopLength(s.ratings, rating.shopId);
      CountShopUnique(s.ratings, rating.shopId);
      forall i, j | 0 <= i < j < |r|
        ensures r[i].shopId != r[j].shopId
      {
        if j < |r| - 1 {
          assert r[i] == w[i] && r[j] == w[j];
        }
      }
    }
  }

  /** Each setter replaces its own fields and leaves every other field as it was. */
  lemma SettersTouchOwnFields(s: State, names: seq<string>, shops: seq<Shop>, ratings: seq<Rating>,
                              analysis: Analysis, shareCode: string, t: Option<TasteType>, p: Option<TasteProfile>)
    ensures var n := SetExtractedNames(s, names);
            n.extractedNames == names && n.confirmedShops == s.confirmedShops && n.ratings == s.ratings
            && n.analysis == s.analysis && n.shareCode == s.shareCode && n.tasteType == s.tasteType && n.tasteProfile == s.tasteProfile
    ensures var c := SetConfirmedShops(s, shops);
            c.confirmedShops == shops && c.extractedNames == s.extractedNames && c.ratings == s.ratings
            && c.analysis == s.analysis && c.shareCode == s.shareCode && c.tasteType == s.tasteType && c.tasteProfile == s.tasteProfile
    ensures var r := SetRatings(s, ratings);
            r.ratings == ratings && r.extractedNames == s.extractedNames && r.confirmedShops == s.confirmedShops
            && r.analysis == s.analysis && r.shareCode == s.shareCode && r.tasteType == s.tasteType && r.tasteProfile == s.tasteProfile
    ensures var a := SetAnalysisResult(s, analysis, shareCode, t, p);
            a.analysis == Some(analysis) && a.shareCode == Some(shareCode) && a.tasteType == t && a.tasteProfile == p
            && a.extractedNames == s.extractedNames && a.confirmedShops == s.confirmedShops && a.ratings == s.ratings
  {
  }

  /** reset restores the initial state, whatever came before, and the initial ratings are one per shop. */
  lemma ResetRestoresInitial(s: State)
    ensures Reset(s) == Initial
    ensures Reset(s).ratings == [] && Reset(s).analysis.None? && Reset(s).shareCode.None? && UniqueShops(Reset(s).ratings)
  {
  }
}
