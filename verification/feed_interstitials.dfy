/**
 * src/config/feedInterstitials.ts: which extra cards the home feed shows
 * after the content at a given index.
 */
module FeedInterstitials {
  datatype Config = Config(
    bonusEnabled: bool, bonusInterval: int,
    userRecommendationEnabled: bool, userRecommendationPosition: int,
    similarEnabled: bool, similarStartPosition: int, similarInterval: int, similarFetchCount: int)

  /** FEED_INTERSTITIAL_CONFIG (lines 7-41). */
  const FeedConfig := Config(true, 3, true, 4, true, 7, 7, 5)

  datatype Interstitial = Interstitial(
    showBonusCard: bool, bonusCardIndex: int,
    showUserRecommendation: bool,
    showSimilarTasteList: bool, similarTasteListIndex: int)

  /**
   * getInterstitialConfig (lines 46-68) for a feed index. The positions are
   * positive here, so JavaScript's % and Math.floor agree with Dafny's.
   */
  function GetInterstitialConfig(config: Config, index: nat): (r: Interstitial)
    requires config.bonusInterval > 0 && config.similarInterval > 0
    ensures r.showBonusCard ==> config.bonusEnabled && r.bonusCardIndex >= 0
    ensures r.showUserRecommendation <==> config.userRecommendationEnabled && index == config.userRecommendationPosition
    ensures r.showSimilarTasteList ==> config.similarEnabled && r.similarTasteListIndex >= 0
    ensures r.similarTasteListIndex >= 0 <==> config.similarEnabled && index >= config.similarStartPosition
  {
    var position := index + 1;
    var similarFrom := config.similarStartPosition + 1;
    Interstitial(
      config.bonusEnabled && position % config.bonusInterval == 0,
      if config.bonusEnabled then position / config.bonusInterval - 1 else -1,
      config.userRecommendationEnabled && index == config.userRecommendationPosition,
      config.similarEnabled && position >= similarFrom && (position - similarFrom) % config.similarInterval == 0,
      if config.similarEnabled && position >= similarFrom then (position - similarFrom) / config.similarInterval else -1)
  }

  /** The shipped configuration, stated on the feed index. */
  lemma FeedConfigSpec(index: nat)
    ensures var c := GetInterstitialConfig(FeedConfig, index);
            (c.showBonusCard <==> (index + 1) % 3 == 0)
            && c.bonusCardIndex == (index + 1) / 3 - 1
            && (c.showUserRecommendation <==> index == 4)
            && (c.showSimilarTasteList <==> index + 1 >= 8 && (index + 1 - 8) % 7 == 0)
            && c.similarTasteListIndex == (if index + 1 >= 8 then (index + 1 - 8) / 7 else -1)
  {
  }

  /** A disabled entry never shows, and its index is -1. */
  lemma DisabledNeverShows(config: Config, index: nat)
    requires config.bonusInterval > 0 && config.similarInterval > 0
    ensures !config.bonusEnabled ==>
              !GetInterstitialConfig(config, index).showBonusCard && GetInterstitialConfig(config, index).bonusCardIndex == -1
    ensures !config.userRecommendationEnabled ==> !GetInterstitialConfig(config, index).showUserRecommendation
    ensures !config.similarEnabled ==>
              !GetInterstitialConfig(config, index).showSimilarTasteList
              && GetInterstitialConfig(config, index).similarTasteListIndex == -1
  {
  }

  /** How many bonus cards the feed shows after the first n contents. */
  function BonusCardsBefore(n: nat): nat
  {
    if n == 0 then 0
    else BonusCardsBefore(n - 1) + (if GetInterstitialConfig(FeedConfig, n - 1).showBonusCard then 1 else 0)
  }

  /**
   * The bonus card index counts the bonus cards already shown: at a shown
   * card it is the number of earlier ones, so successive cards take 0, 1, 2, ...
   */
  lemma {:induction false} BonusCardIndexCounts(index: nat)
    ensures BonusCardsBefore(index + 1) == (index + 1) / 3
    ensures GetInterstitialConfig(FeedConfig, index).showBonusCard ==>
              GetInterstitialConfig(FeedConfig, index).bonusCardIndex == BonusCardsBefore(index)
  {
    if index > 0 {
      BonusCardIndexCounts(index - 1);
    }
  }

  /** How many similar-taste lists the feed shows after the first n contents. */
  function SimilarListsBefore(n: nat): nat
  {
    if n == 0 then 0
    else SimilarListsBefore(n - 1) + (if GetInterstitialConfig(FeedConfig, n - 1).showSimilarTasteList then 1 else 0)
  }

  /** Likewise the similar-taste list index counts the lists already shown. */
  lemma {:induction false} SimilarListIndexCounts(index: nat)
    ensures SimilarListsBefore(index + 1) == (if index + 1 >= 8 then (index + 1 - 8) / 7 + 1 else 0)
    ensures GetInterstitialConfig(FeedConfig, index).showSimilarTasteList ==>
              GetInterstitialConfig(FeedConfig, index).similarTasteListIndex == SimilarListsBefore(index)
  {
    if index > 0 {
      SimilarListIndexCounts(index - 1);
    }
  }
}
