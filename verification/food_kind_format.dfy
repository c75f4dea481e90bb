/**
 * src/lib/foodKindMap.ts: raw food_kind values from several sources are shown
 * under one Korean display name.
 */
module FoodKindFormat {
  import opened Wrappers
  import opened Text

  /** FOOD_KIND_MAP (lines 8-112). */
  const FoodKindMap: map<string, string> := map[
    "korean_restaurant" := "한식",
    "japanese_restaurant" := "일식",
    "chinese_restaurant" := "중식",
    "italian_restaurant" := "이탈리안",
    "french_restaurant" := "프렌치",
    "thai_restaurant" := "태국",
    "vietnamese_restaurant" := "베트남",
    "indian_restaurant" := "인도",
    "mexican_restaurant" := "멕시칸",
    "american_restaurant" := "미국식",
    "seafood_restaurant" := "해산물",
    "steak_house" := "스테이크",
    "sushi_restaurant" := "스시",
    "ramen_restaurant" := "라멘",
    "pizza_restaurant" := "피자",
    "hamburger_restaurant" := "햄버거",
    "cafe" := "카페",
    "coffee_shop" := "카페",
    "bakery" := "베이커리",
    "bar" := "바",
    "dessert_restaurant" := "디저트",
    "ice_cream_shop" := "디저트",
    "brunch_restaurant" := "브런치",
    "breakfast_restaurant" := "브런치",
    "buffet_restaurant" := "뷔페",
    "fine_dining_restaurant" := "파인다이닝",
    "fast_food_restaurant" := "패스트푸드",
    "restaurant" := "음식점",
    "meal_delivery" := "음식점",
    "meal_takeaway" := "음식점",
    "korean" := "한식",
    "japanese" := "일식",
    "chinese" := "중식",
    "western" := "양식",
    "italian" := "이탈리안",
    "french" := "프렌치",
    "thai" := "태국",
    "vietnamese" := "베트남",
    "indian" := "인도",
    "mexican" := "멕시칸",
    "american" := "미국식",
    "seafood" := "해산물",
    "steak" := "스테이크",
    "sushi" := "스시",
    "ramen" := "라멘",
    "pizza" := "피자",
    "hamburger" := "햄버거",
    "bakery_upper" := "베이커리",
    "bar_upper" := "바",
    "dessert" := "디저트",
    "brunch" := "브런치",
    "buffet" := "뷔페",
    "fine_dining" := "파인다이닝",
    "fast_food" := "패스트푸드",
    "한식당" := "한식",
    "한식" := "한식",
    "일식당" := "일식",
    "일식" := "일식",
    "중식당" := "중식",
    "중식" := "중식",
    "중국 음식점" := "중식",
    "이탈리안" := "이탈리안",
    "이탈리아 음식점" := "이탈리안",
    "프렌치" := "프렌치",
    "프랑스 음식점" := "프렌치",
    "태국 음식점" := "태국",
    "베트남 음식점" := "베트남",
    "인도 음식점" := "인도",
    "멕시코 음식점" := "멕시칸",
    "미국 음식점" := "미국식",
    "해산물" := "해산물",
    "해산물 음식점" := "해산물",
    "스테이크" := "스테이크",
    "스테이크 하우스" := "스테이크",
    "스시" := "스시",
    "초밥집" := "스시",
    "라멘" := "라멘",
    "라멘집" := "라멘",
    "피자" := "피자",
    "피자집" := "피자",
    "햄버거" := "햄버거",
    "햄버거집" := "햄버거",
    "카페" := "카페",
    "커피숍" := "카페",
    "커피 전문점" := "카페",
    "베이커리" := "베이커리",
    "빵집" := "베이커리",
    "바" := "바",
    "디저트" := "디저트",
    "아이스크림" := "디저트",
    "아이스크림 가게" := "디저트",
    "브런치" := "브런치",
    "조식" := "브런치",
    "뷔페" := "뷔페",
    "파인다이닝" := "파인다이닝",
    "패스트푸드" := "패스트푸드",
    "양식" := "양식",
    "음식점" := "음식점"
  ]

  /** The display names FOOD_KIND_MAP produces. */
  const DisplayNames: set<string> := set k | k in FoodKindMap :: FoodKindMap[k]

  /**
   * foodKind.replace(/\s*(음식점|레스토랑|식당)$/, ''): a suffix at the very end
   * goes, together with the whitespace right before it. No suffix ends
   * another, so at most one of them can match.
   */
  function StripSuffix(s: string): (r: string)
    ensures |r| <= |s| && r == s[..|r|]
    ensures r != s <==> EndsWith(s, "음식점") || EndsWith(s, "레스토랑") || EndsWith(s, "식당")
  {
    if EndsWith(s, "음식점") then TrimEnd(s[..|s| - 3])
    else if EndsWith(s, "레스토랑") then TrimEnd(s[..|s| - 4])
    else if EndsWith(s, "식당") then TrimEnd(s[..|s| - 2])
    else s
  }

  /**
   * formatFoodKind (lines 120-138). foodKind None stands for null/undefined;
   * the three lookups are tried in turn.
   */
  function FormatFoodKind(foodKind: Option<string>, fallback: string): (r: string)
    ensures foodKind.None? || foodKind.value == [] ==> r == fallback
    ensures foodKind.Some? && foodKind.value != [] ==> r == foodKind.value || r in DisplayNames
    ensures foodKind.Some? && foodKind.value != [] && Trim(Lower(foodKind.value)) in FoodKindMap ==> r == FoodKindMap[Trim(Lower(foodKind.value))]
    ensures foodKind.Some? && foodKind.value != [] && Trim(Lower(foodKind.value)) !in FoodKindMap && Trim(foodKind.value) in FoodKindMap
            ==> r == FoodKindMap[Trim(foodKind.value)]
    ensures foodKind.Some? && foodKind.value != [] && Trim(Lower(foodKind.value)) !in FoodKindMap && Trim(foodKind.value) !in FoodKindMap
            && Trim(StripSuffix(foodKind.value)) != foodKind.value && Trim(StripSuffix(foodKind.value)) in FoodKindMap
            ==> r == FoodKindMap[Trim(StripSuffix(foodKind.value))]
  {
    if foodKind.None? || foodKind.value == [] then fallback
    else
      var s := foodKind.value;
      var lower := Trim(Lower(s));
      if lower in FoodKindMap then FoodKindMap[lower]
      else if Trim(s) in FoodKindMap then FoodKindMap[Trim(s)]
      else
        var withoutSuffix := Trim(StripSuffix(s));
        if withoutSuffix != s && withoutSuffix in FoodKindMap then FoodKindMap[withoutSuffix]
        else s
  }

  /** A value with no mapping under any of the three lookups comes back unchanged, untrimmed. */
  lemma UnmappedUnchanged(s: string, fallback: string)
    requires s != []
    requires Trim(Lower(s)) !in FoodKindMap && Trim(s) !in FoodKindMap
    requires Trim(StripSuffix(s)) !in FoodKindMap
    ensures FormatFoodKind(Some(s), fallback) == s
  {
  }

  /** Examples: a missing value and a Korean name that is its own display name. */
  lemma FormatExamples(fallback: string)
    ensures FormatFoodKind(None, fallback) == fallback
    ensures FormatFoodKind(Some("음식점"), fallback) == "음식점"
  {
    var s := "음식점";
    assert Trim(Lower(s)) == s by {
      assert Lower(s) == s;
      TrimNoSpaceEnds(s);
    }
    assert FoodKindMap[s] == s;
  }
}
