/**
 * server/utils/foodKindMap.ts: a normalised category chosen in a filter expands
 * to every raw food_kind value stored for it in the database.
 */
module FoodKindExpand {
  import opened Wrappers

  /** FOOD_KIND_REVERSE_MAP (lines 10-107): normalised category to the raw values stored for it. */
  const ReverseMap: map<string, seq<string>> := map[
    "한식" := ["한식", "한식당", "한정식", "백반,가정식", "찌개,전골", "국수", "국수,냉면", "냉면", "분식", "족발,보쌈", "보쌈,족발", "족발, 보쌈", "곱창,막창", "뉴코리안", "닭발", "korean_restaurant", "Korean Restaurant"],
    "일식" := ["일식", "이자카야", "야키토리", "돈가스", "일본 음식점", "japanese_restaurant", "Japanese Restaurant", "일본라면 전문식당"],
    "오마카세" := ["스시오마카세", " 스시오마카세", "한우오마카세", "가이세키오마카세", "쿠시아게오마카세", "돼지고기오마카세", "일식오마카세", "기타 오마카세"],
    "스시/회" := ["회,사시미", "참치회", "스시,초밥", "sushi_restaurant"],
    "라멘" := ["라멘", "ramen_restaurant", "Ramen Restaurant"],
    "중식" := ["중식", "중국 음식점", "chinese_restaurant", "Chinese Restaurant"],
    "이탈리안" := ["이탈리아음식", "파스타", "이탈리아 음식점", "italian_restaurant"],
    "피자" := ["피자", "피자 전문점", "pizza_restaurant"],
    "프렌치" := ["프랑스음식", "프랑스 음식점", "french_restaurant"],
    "양식" := ["양식", "유러피안음식", "스페인음식", "컨템포러리"],
    "고기/구이" := ["육류,고기요리", "소고기구이", "돼지고기구이", "양고기", "바베큐", "숯불구이/바베큐전문점", "barbecue_restaurant", "Barbecue Restaurant", "닭 요리", "닭,오리요리", "오리 요리"],
    "스테이크" := ["스테이크,립", "스테이크 전문점", "일본 스테이크 전문점", "steak_house"],
    "해산물" := ["해물,생선요리", "해물(탕/찜/볶음)", "굴, 조개", "게, 랍스터", "랍스터", "복어요리", "장어요리", "장어 요리", "해산물 요리 전문식당", "seafood_restaurant", "Seafood Restaurant", "샤브샤브"],
    "바/주점" := ["다이닝바", "요리주점", "와인", "칵테일,위스키", "맥주,호프", "전통주", "주점", "오뎅바", "와인 바", "bar"],
    "카페" := ["카페", "카페,디저트", "커피숍/커피 전문점", "coffee_shop", "Coffee Shop", "cafe", "Cafe"],
    "베이커리" := ["베이커리", "카페 & 베이커리", "제과점", "케이크", "bakery"],
    "브런치" := ["브런치", "브런치 식당", "brunch_restaurant"],
    "태국" := ["태국음식", "태국 음식점", "Thai Restaurant", "thai_restaurant"],
    "베트남" := ["베트남음식", "베트남 음식점", "vietnamese_restaurant", "Vietnamese Restaurant"],
    "인도" := ["인도음식", "인도요리", "indian_restaurant"],
    "멕시칸" := ["멕시코,남미음식", "멕시코음식", "mexican_restaurant"],
    "미국식" := ["아메리칸음식", "아메리칸 레스토랑", "햄버거", "햄버거집", "hamburger_restaurant", "american_restaurant"],
    "아시안" := ["아시아음식"],
    "디저트" := ["디저트", "아이스크림 가게", "dessert_restaurant", "ice_cream_shop"],
    "뷔페" := ["뷔페", "호텔뷔페", "buffet_restaurant"],
    "퓨전" := ["퓨전음식"],
    "파인다이닝" := ["파인다이닝", "코스요리", "fine_dining_restaurant"]
  ]

  /** Every entry of the table lists at least one raw value. */
  lemma ReverseMapNonEmpty()
    ensures forall k :: k in ReverseMap ==> |ReverseMap[k]| >= 1
  {
  }

  /** What one name contributes under a table: its raw values when it is a key, else the name itself. */
  function ExpandOne(table: map<string, seq<string>>, name: string): seq<string>
  {
    if name in table then table[name] else [name]
  }

  /** The contributions of the names, concatenated in input order. */
  function ExpandWith(table: map<string, seq<string>>, names: seq<string>): seq<string>
  {
    if names == [] then [] else ExpandOne(table, names[0]) + ExpandWith(table, names[1..])
  }

  /** The expansion under the category table: never shorter than the input, and empty only for no names. */
  function Expand(names: seq<string>): (r: seq<string>)
    ensures |r| >= |names|
    ensures r == [] <==> names == []
  {
    ReverseMapNonEmpty();
    ExpandLength(ReverseMap, names);
    ExpandWith(ReverseMap, names)
  }

  /** expandFoodKindFilter (lines 112-124): one push per name, in order. */
  method ExpandFoodKindFilter(names: seq<string>) returns (expanded: seq<string>)
    ensures expanded == Expand(names)
  {
    expanded := [];
    for i := 0 to |names|
      invariant expanded == ExpandWith(ReverseMap, names[..i])
    {
      ExpandSnoc(ReverseMap, names, i);
      var name := names[i];
      if name in ReverseMap {
        expanded := expanded + ReverseMap[name];
      } else {
        expanded := expanded + [name];
      }
    }
    assert names[..|names|] == names;
  }

  /** Each name expands on its own: expanding a concatenation concatenates the expansions. */
  lemma {:induction false} ExpandAppend(table: map<string, seq<string>>, a: seq<string>, b: seq<string>)
    ensures ExpandWith(table, a + b) == ExpandWith(table, a) + ExpandWith(table, b)
  {
    if a == [] {
      assert a + b == b;
    } else {
      var head := ExpandOne(table, a[0]);
      calc {
        ExpandWith(table, a + b);
        { assert (a + b)[0] == a[0] && (a + b)[1..] == a[1..] + b; }
        head + ExpandWith(table, a[1..] + b);
        { ExpandAppend(table, a[1..], b); }
        head + (ExpandWith(table, a[1..]) + ExpandWith(table, b));
        (head + ExpandWith(table, a[1..])) + ExpandWith(table, b);
      }
    }
  }

  /** One more name adds its own contribution at the end. */
  lemma ExpandSnoc(table: map<string, seq<string>>, names: seq<string>, i: nat)
    requires i < |names|
    ensures ExpandWith(table, names[..i + 1]) == ExpandWith(table, names[..i]) + ExpandOne(table, names[i])
  {
    ExpandAppend(table, names[..i], [names[i]]);
    assert names[..i + 1] == names[..i] + [names[i]];
    assert [names[i]][1..] == [];
  }

  /**
   * With a table whose entries are never empty (as ReverseMapNonEmpty shows of
   * the real one), the output is never shorter than the input, and empty input
   * gives empty output.
   */
  lemma {:induction false} ExpandLength(table: map<string, seq<string>>, names: seq<string>)
    requires forall k :: k in table ==> |table[k]| >= 1
    ensures |ExpandWith(table, names)| >= |names|
    ensures names == [] <==> ExpandWith(table, names) == []
  {
    if names != [] {
      ExpandLength(table, names[1..]);
    }
  }

  /** Names that are not keys pass through unchanged and in order. */
  lemma {:induction false} ExpandUnknown(table: map<string, seq<string>>, names: seq<string>)
    requires forall i :: 0 <= i < |names| ==> names[i] !in table
    ensures ExpandWith(table, names) == names
  {
    if names != [] {
      ExpandUnknown(table, names[1..]);
    }
  }

  /** A known category expands to exactly its own list. */
  lemma ExpandKnown(table: map<string, seq<string>>, name: string)
    requires name in table
    ensures ExpandWith(table, [name]) == table[name]
  {
    assert [name][1..] == [];
  }

  /** Every input name is matched: a key's whole list, or the name itself, appears in the output. */
  lemma {:induction false} ExpandCovers(table: map<string, seq<string>>, names: seq<string>, i: nat)
    requires i < |names|
    ensures names[i] in table ==> forall v :: v in table[names[i]] ==> v in ExpandWith(table, names)
    ensures names[i] !in table ==> names[i] in ExpandWith(table, names)
  {
    assert names == names[..i] + [names[i]] + names[i + 1..];
    ExpandAppend(table, names[..i] + [names[i]], names[i + 1..]);
    ExpandAppend(table, names[..i], [names[i]]);
    assert [names[i]][1..] == [];
  }

  /** The 한식 filter matches, among others, the raw values 한식당 and korean_restaurant. */
  lemma KoreanExample()
    ensures "한식당" in Expand(["한식"]) && "korean_restaurant" in Expand(["한식"])
    ensures Expand(["분식집"]) == ["분식집"]
  {
    KoreanListed();
    SnackShopUnknown();
  }

  lemma KoreanListed()
    ensures "한식당" in Expand(["한식"]) && "korean_restaurant" in Expand(["한식"])
  {
    ExpandKnown(ReverseMap, "한식");
    assert ReverseMap["한식"][1] == "한식당" && ReverseMap["한식"][15] == "korean_restaurant";
  }

  lemma SnackShopUnknown()
    ensures Expand(["분식집"]) == ["분식집"]
  {
    ExpandUnknown(ReverseMap, ["분식집"]);
  }

  /**
   * The keys every JavaScript object inherits from Object.prototype. Indexing
   * FOOD_KIND_REVERSE_MAP with one of them yields a function (or, for
   * __proto__, the prototype object): a truthy value that is not iterable.
   */
  const InheritedKeys: set<string> := {
    "constructor", "__proto__", "toString", "toLocaleString", "valueOf", "hasOwnProperty",
    "isPrototypeOf", "propertyIsEnumerable", "__defineGetter__", "__defineSetter__",
    "__lookupGetter__", "__lookupSetter__"}

  /**
   * expandFoodKindFilter as written (lines 112-124), under a table: `if
   * (rawValues)` lets an inherited key that the table does not define through
   * to `push(...rawValues)`, whose spread of a non-iterable throws a
   * TypeError. None stands for that throw.
   */
  function ExpandAsWritten(table: map<string, seq<string>>, names: seq<string>): (r: Option<seq<string>>)
    ensures r.None? <==> exists i :: 0 <= i < |names| && names[i] in InheritedKeys && names[i] !in table
    ensures r.Some? ==> r.value == ExpandWith(table, names)
  {
    if names == [] then Some([])
    else if names[0] in InheritedKeys && names[0] !in table then None
    else
      var rest := ExpandAsWritten(table, names[1..]);
      assert forall i :: 1 <= i < |names| ==> names[1..][i - 1] == names[i];
      if rest.None? then None
      else Some(ExpandOne(table, names[0]) + rest.value)
  }

  /** A filter naming "constructor" throws as written, where an unknown name should pass through. */
  lemma ConstructorFilterThrows()
    ensures ExpandAsWritten(ReverseMap, ["constructor"]).None?
    ensures Expand(["constructor"]) == ["constructor"]
  {
    assert ["constructor"][0] in InheritedKeys && "constructor" !in ReverseMap;
    ExpandUnknown(ReverseMap, ["constructor"]);
  }
}
