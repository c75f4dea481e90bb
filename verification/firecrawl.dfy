/**
 * server/services/FirecrawlService.ts, parseGoogleMapsMarkdown: reads the
 * markdown of a scraped Google Maps page and guesses the shop's name (the
 * first heading), its address (the first line that looks like a Korean
 * address) and its categories (short lines with a food word and no UI word),
 * then picks the longest category as the primary one.
 */
module Firecrawl {
  import opened Wrappers
  import Text
  import Sorting

  /** ScrapeResult without rawMarkdown and error (lines 10-17). */
  datatype ScrapeResult = ScrapeResult(category: Option<string>, allCategories: seq<string>, shopName: Option<string>, address: Option<string>)

  /** foodKeywords (lines 109-115). */
  const FoodKeywords: seq<string> := [
    "전문점", "식당", "레스토랑", "카페", "베이커리", "바", "펍",
    "음식점", "맛집", "요리", "주점", "이자카야", "스시", "라멘",
    "파스타", "피자", "치킨", "버거", "샌드위치", "디저트", "빵집",
    "한식", "중식", "일식", "양식", "아시안", "멕시칸", "이탈리안",
    "restaurant", "cafe", "bakery", "bar", "pub"]

  /** excludeKeywords (lines 118-126). */
  const ExcludeKeywords: seq<string> := [
    "리뷰", "사진", "저장", "공유", "경로", "전화", "웹사이트",
    "영업", "시간", "메뉴", "예약", "주문", "배달", "포장",
    "더보기", "접기", "로그인", "검색",
    "주변", "근처", "인기", "추천", "관련", "비슷한", "다른",
    "지도", "길찾기", "거리뷰", "스트리트뷰", "평점", "별점",
    "최근", "새로운", "모든", "전체", "목록"]

  /** The city names of lines 139-140. */
  const CityKeywords: seq<string> := ["서울", "경기", "인천", "부산", "대구", "대전"]

  /** The three keyword lists; the lemmas below hold for any lists. */
  datatype Vocabulary = Vocabulary(food: seq<string>, exclude: seq<string>, cities: seq<string>)

  const GoogleMaps := Vocabulary(FoodKeywords, ExcludeKeywords, CityKeywords)

  const CategoryMaxLength: nat := 30
  const AddressMinLength: nat := 10
  const AddressMaxLength: nat := 100

  /** `split('\n').map(l => l.trim()).filter(Boolean)` over the pieces. */
  function TrimmedLines(parts: seq<string>): (r: seq<string>)
    ensures |r| <= |parts|
    ensures forall k :: 0 <= k < |r| ==> r[k] != [] && Text.Trim(r[k]) == r[k]
  {
    if parts == [] then []
    else
      var t := Text.Trim(parts[0]);
      Text.TrimIdempotent(parts[0]);
      (if t != [] then [t] else []) + TrimmedLines(parts[1..])
  }

  /** The lines of line 101: trimmed, the empty ones dropped. */
  function Lines(markdown: string): (r: seq<string>)
    ensures forall k :: 0 <= k < |r| ==> r[k] != [] && Text.Trim(r[k]) == r[k]
  {
    TrimmedLines(Text.Split(markdown, '\n'))
  }

  /** `keywords.some(kw => line.includes(kw))`. */
  predicate ContainsAny(line: string, keywords: seq<string>)
  {
    keywords != [] && (Text.Contains(line, keywords[0]) || ContainsAny(line, keywords[1..]))
  }

  /**
   * `line.match(/\d+[동|로|길]/)`: a digit directly followed by 동, 로, 길 or
   * '|' (the bracket is a character class, so its bars are members too).
   */
  predicate HasHouseNumber(line: string)
  {
    exists i :: 0 <= i < |line| - 1 && Text.IsDigit(line[i]) && line[i + 1] in "동|로길"
  }

  /** The address test of lines 138-146, both conditions together. */
  predicate AddressLine(v: Vocabulary, line: string)
  {
    (ContainsAny(line, v.cities) || HasHouseNumber(line)) && AddressMinLength < Text.Utf16Length(line) < AddressMaxLength
  }

  /** The category test of lines 149-153. */
  predicate CategoryLine(v: Vocabulary, line: string)
  {
    ContainsAny(line, v.food) && !ContainsAny(line, v.exclude) && Text.Utf16Length(line) < CategoryMaxLength
  }

  /** `!x` for a string that may be null. */
  predicate Falsy(x: Option<string>)
  {
    x.None? || x.value == []
  }

  predicate IsHeading(line: string)
  {
    Text.StartsWith(line, "#")
  }

  /** The leading run of '#' removed. */
  function DropHashes(line: string): (r: string)
    ensures |r| <= |line|
  {
    if line != [] && line[0] == '#' then DropHashes(line[1..]) else line
  }

  /** The heading text of line 133: the leading hashes and the spaces after them removed, then trimmed. */
  function Heading(line: string): string
  {
    Text.Trim(DropHashes(line))
  }

  /** The index of the first c at or after from, or |s| when there is none. */
  function IndexFrom(s: string, c: char, from: nat): (r: nat)
    requires from <= |s|
    ensures from <= r <= |s|
    ensures r < |s| ==> s[r] == c
    ensures forall i :: from <= i < r ==> s[i] != c
    decreases |s| - from
  {
    if from == |s| || s[from] == c then from else IndexFrom(s, c, from + 1)
  }

  /**
   * `s.replace(/\[([^\]]+)\]\([^)]+\)/g, '$1')`: every link `[text](url)`,
   * text and url non-empty, becomes its text; the search resumes after the
   * link, and a '[' that starts no link is kept.
   */
  function StripLinks(s: string): (r: string)
    decreases |s|
  {
    if s == [] then []
    else if s[0] == '[' then
      var j := IndexFrom(s, ']', 1);
      if 1 < j && j + 1 < |s| && s[j + 1] == '(' then
        var k := IndexFrom(s, ')', j + 2);
        if j + 2 < k < |s| then s[1..j] + StripLinks(s[k + 1..])
        else [s[0]] + StripLinks(s[1..])
      else [s[0]] + StripLinks(s[1..])
    else [s[0]] + StripLinks(s[1..])
  }

  /** Text without '[' has no link and is left as it is. */
  lemma {:induction false} StripLinksPlain(s: string)
    requires '[' !in s
    ensures StripLinks(s) == s
  {
    if s != [] {
      StripLinksPlain(s[1..]);
    }
  }

  /** A link at the front is replaced by its text. */
  lemma StripLinksLink(text: string, url: string, rest: string)
    requires text != [] && ']' !in text && url != [] && ')' !in url
    ensures StripLinks("[" + text + "](" + url + ")" + rest) == text + StripLinks(rest)
  {
    var s := "[" + text + "](" + url + ")" + rest;
    var j := |text| + 1;
    assert s[j] == ']' && s[j + 1] == '(';
    assert forall i :: 1 <= i < j ==> s[i] == text[i - 1];
    assert IndexFrom(s, ']', 1) == j;
    var k := j + 2 + |url|;
    assert s[k] == ')';
    assert forall i :: j + 2 <= i < k ==> s[i] == url[i - j - 2];
    assert IndexFrom(s, ')', j + 2) == k;
    assert s[1..j] == text;
    assert s[k + 1..] == rest;
  }

  /** The text a category line contributes (line 155). */
  function Cleaned(line: string): string
  {
    Text.Trim(StripLinks(line))
  }

  /** The loop's variables: shopName, address and the categories so far. */
  datatype Acc = Acc(shopName: Option<string>, address: Option<string>, categories: seq<string>)

  const Start := Acc(None, None, [])

  /** The address after a line that is not taken as the name (lines 137-146). */
  function NextAddress(v: Vocabulary, address: Option<string>, line: string): Option<string>
  {
    if Falsy(address) && AddressLine(v, line) then Some(line) else address
  }

  /** The categories after a line that is not taken as the name (lines 149-158). */
  function NextCategories(v: Vocabulary, categories: seq<string>, line: string): seq<string>
  {
    if CategoryLine(v, line) && Cleaned(line) != [] && Cleaned(line) !in categories
    then categories + [Cleaned(line)] else categories
  }

  /** One turn of the loop of lines 128-159. */
  function Visit(v: Vocabulary, acc: Acc, line: string): Acc
  {
    if Falsy(acc.shopName) && IsHeading(line) then acc.(shopName := Some(Heading(line)))
    else Acc(acc.shopName, NextAddress(v, acc.address, line), NextCategories(v, acc.categories, line))
  }

  /** The fields after one line, each on its own. */
  lemma VisitFields(v: Vocabulary, acc: Acc, line: string)
    ensures var taken := Falsy(acc.shopName) && IsHeading(line);
            Visit(v, acc, line).shopName == (if taken then Some(Heading(line)) else acc.shopName)
            && Visit(v, acc, line).address == (if taken then acc.address else NextAddress(v, acc.address, line))
            && Visit(v, acc, line).categories == (if taken then acc.categories else NextCategories(v, acc.categories, line))
  {
  }

  /** A name or an address already found is kept. */
  lemma VisitKeeps(v: Vocabulary, acc: Acc, line: string)
    ensures !Falsy(acc.shopName) ==> Visit(v, acc, line).shopName == acc.shopName
    ensures !Falsy(acc.address) ==> Visit(v, acc, line).address == acc.address
  {
  }

  /** The loop over the first lines. */
  function Scan(v: Vocabulary, lines: seq<string>): Acc
  {
    if lines == [] then Start else Visit(v, Scan(v, lines[..|lines| - 1]), lines[|lines| - 1])
  }

  /** The loop over the first m + 1 lines is one more turn after the first m. */
  lemma ScanStep(v: Vocabulary, lines: seq<string>, m: nat)
    requires m < |lines|
    ensures Scan(v, lines[..m + 1]) == Visit(v, Scan(v, lines[..m]), lines[m])
  {
    assert lines[..m + 1][..m] == lines[..m];
  }

  /** `b.length - a.length` as "a may come first": the longer category first. */
  function LongerFirst(a: string, b: string): bool
  {
    Text.Utf16Length(b) - Text.Utf16Length(a) <= 0
  }

  /** Lengths are `.length`, in UTF-16 units: an emoji counts twice, so "🍜한식" sorts before "일식당". */
  lemma EmojiCountsTwice()
    ensures Text.Utf16Length("🍜한식") == 4 && Text.Utf16Length("일식당") == 3
    ensures LongerFirst("🍜한식", "일식당") && !LongerFirst("일식당", "🍜한식")
  {
    assert "🍜한식"[..2] == "🍜한" && "🍜한"[..1] == "🍜" && "🍜"[..0] == [];
    assert "일식당"[..2] == "일식" && "일식"[..1] == "일" && "일"[..0] == [];
  }

  /** The result of lines 162-168: the categories sorted longest first, in place, and the first of them. */
  function Finish(acc: Acc): ScrapeResult
  {
    var sorted := Sorting.SortBy(acc.categories, LongerFirst);
    ScrapeResult(if sorted != [] && sorted[0] != [] then Some(sorted[0]) else None, sorted, acc.shopName, acc.address)
  }

  /**
   * What parseGoogleMapsMarkdown (lines 100-170) returns for a text: every category
   * found is listed, and the primary one is absent only when none was found
   * and is otherwise one no other category is longer than.
   */
  function Parse(markdown: string): (r: ScrapeResult)
    ensures multiset(r.allCategories) == multiset(Scan(GoogleMaps, Lines(markdown)).categories)
    ensures r.category.None? <==> r.allCategories == []
    ensures r.category.Some? ==>
              r.category.value in r.allCategories
              && forall c :: c in r.allCategories ==> Text.Utf16Length(c) <= Text.Utf16Length(r.category.value)
  {
    FinishFacts(GoogleMaps, Lines(markdown));
    Finish(Scan(GoogleMaps, Lines(markdown)))
  }

  /** The contract of Parse, for any keyword lists and lines. */
  lemma FinishFacts(v: Vocabulary, lines: seq<string>)
    ensures var r := Finish(Scan(v, lines));
            multiset(r.allCategories) == multiset(Scan(v, lines).categories)
            && (r.category.None? <==> r.allCategories == [])
            && (r.category.Some? ==>
                  r.category.value in r.allCategories
                  && forall c :: c in r.allCategories ==> Text.Utf16Length(c) <= Text.Utf16Length(r.category.value))
  {
    var r := Finish(Scan(v, lines));
    var cats := Scan(v, lines).categories;
    FinishSorted(v, lines);
    FinishPrimary(v, lines);
    assert r.allCategories == [] <==> cats == [] by {
      assert |r.allCategories| == |multiset(r.allCategories)| == |multiset(cats)| == |cats|;
    }
    forall c | c in r.allCategories
      ensures c in cats
    {
      assert c in multiset(r.allCategories);
    }
    if r.category.Some? {
      assert r.category.value in multiset(cats);
    }
  }

  /** The loop of lines 128-159 over the lines, with the keyword lists v. */
  method ScanLines(v: Vocabulary, lines: seq<string>) returns (shopName: Option<string>, address: Option<string>, categories: seq<string>)
    ensures Acc(shopName, address, categories) == Scan(v, lines)
  {
    shopName := None;
    address := None;
    categories := [];
    for i := 0 to |lines|
      invariant Acc(shopName, address, categories) == Scan(v, lines[..i])
    {
      var line := lines[i];
      ScanStep(v, lines, i);
      VisitFields(v, Acc(shopName, address, categories), line);
      if Falsy(shopName) && Text.StartsWith(line, "#") {
        shopName := Some(Heading(line));
        continue;
      }
      if Falsy(address) && (ContainsAny(line, v.cities) || HasHouseNumber(line)) {
        if AddressMinLength < Text.Utf16Length(line) && Text.Utf16Length(line) < AddressMaxLength {
          address := Some(line);
        }
      }
      var hasFood := ContainsAny(line, v.food);
      var hasExclude := ContainsAny(line, v.exclude);
      if hasFood && !hasExclude && Text.Utf16Length(line) < CategoryMaxLength {
        var cleaned := Text.Trim(StripLinks(line));
        if cleaned != [] && cleaned !in categories {
          categories := categories + [cleaned];
        }
      }
    }
    assert lines[..|lines|] == lines;
  }

  /** parseGoogleMapsMarkdown (lines 100-170): the loop, then the in-place sort and the primary category. */
  method ParseGoogleMapsMarkdown(markdown: string) returns (result: ScrapeResult)
    ensures result == Parse(markdown)
  {
    var lines := Lines(markdown);
    var shopName, address, categories := ScanLines(GoogleMaps, lines);
    categories := Sorting.SortBy(categories, LongerFirst);
    var primary := if categories != [] && categories[0] != [] then Some(categories[0]) else None;
    result := ScrapeResult(primary, categories, shopName, address);
  }

  /** The category was collected from a category line of the input. */
  predicate FromCategoryLine(v: Vocabulary, lines: seq<string>, c: string)
  {
    exists k :: 0 <= k < |lines| && CategoryLine(v, lines[k]) && c == Cleaned(lines[k])
  }

  predicate Distinct(s: seq<string>)
  {
    forall i, j :: 0 <= i < j < |s| ==> s[i] != s[j]
  }

  /** One line adds at most its own cleaned text, and only when it is new. */
  lemma NextCategoriesSpec(v: Vocabulary, categories: seq<string>, line: string)
    ensures categories <= NextCategories(v, categories, line)
    ensures forall c :: c in NextCategories(v, categories, line) ==>
              c in categories || (c == Cleaned(line) && CategoryLine(v, line) && c != [])
    ensures Distinct(categories) ==> Distinct(NextCategories(v, categories, line))
    ensures CategoryLine(v, line) && Cleaned(line) != [] ==> Cleaned(line) in NextCategories(v, categories, line)
  {
  }

  /** The categories after a line, whether or not it was taken as the name. */
  lemma ScanCategoriesStep(v: Vocabulary, lines: seq<string>)
    requires lines != []
    ensures var n := |lines| - 1;
            var before := Scan(v, lines[..n]).categories;
            var after := Scan(v, lines).categories;
            before <= after
            && (forall c :: c in after ==> c in before || (c == Cleaned(lines[n]) && CategoryLine(v, lines[n]) && c != []))
            && (Distinct(before) ==> Distinct(after))
            && (!IsHeading(lines[n]) && CategoryLine(v, lines[n]) && Cleaned(lines[n]) != [] ==> Cleaned(lines[n]) in after)
  {
    var n := |lines| - 1;
    var acc := Scan(v, lines[..n]);
    VisitFields(v, acc, lines[n]);
    NextCategoriesSpec(v, acc.categories, lines[n]);
  }

  /** Every category comes, cleaned and non-empty, from a category line. */
  lemma {:induction false} ScanCategoriesFrom(v: Vocabulary, lines: seq<string>)
    ensures forall c :: c in Scan(v, lines).categories ==> c != [] && FromCategoryLine(v, lines, c)
  {
    if lines != [] {
      var n := |lines| - 1;
      var init := lines[..n];
      ScanCategoriesFrom(v, init);
      ScanCategoriesStep(v, lines);
      forall c | c in Scan(v, lines).categories
        ensures c != [] && FromCategoryLine(v, lines, c)
      {
        if c in Scan(v, init).categories {
          var k :| 0 <= k < |init| && CategoryLine(v, init[k]) && c == Cleaned(init[k]);
          assert lines[k] == init[k];
        }
      }
    }
  }

  /** No category is collected twice. */
  lemma {:induction false} ScanCategoriesDistinct(v: Vocabulary, lines: seq<string>)
    ensures Distinct(Scan(v, lines).categories)
  {
    if lines != [] {
      ScanCategoriesDistinct(v, lines[..|lines| - 1]);
      ScanCategoriesStep(v, lines);
    }
  }

  /** Every category line that is not a heading contributes its cleaned text. */
  lemma {:induction false} ScanCategoriesComplete(v: Vocabulary, lines: seq<string>)
    ensures forall k :: 0 <= k < |lines| && !IsHeading(lines[k]) && CategoryLine(v, lines[k]) && Cleaned(lines[k]) != []
              ==> Cleaned(lines[k]) in Scan(v, lines).categories
  {
    if lines != [] {
      var n := |lines| - 1;
      var init := lines[..n];
      ScanCategoriesComplete(v, init);
      ScanCategoriesStep(v, lines);
      forall k | 0 <= k < n && !IsHeading(lines[k]) && CategoryLine(v, lines[k]) && Cleaned(lines[k]) != []
        ensures Cleaned(lines[k]) in Scan(v, lines).categories
      {
        assert init[k] == lines[k];
      }
    }
  }

  /**
   * Every category comes, cleaned and non-empty, from a category line; none
   * is collected twice; and every category line that is not a heading
   * contributes its cleaned text.
   */
  lemma ScanCategories(v: Vocabulary, lines: seq<string>)
    ensures forall c :: c in Scan(v, lines).categories ==> c != [] && FromCategoryLine(v, lines, c)
    ensures Distinct(Scan(v, lines).categories)
    ensures forall k :: 0 <= k < |lines| && !IsHeading(lines[k]) && CategoryLine(v, lines[k]) && Cleaned(lines[k]) != []
              ==> Cleaned(lines[k]) in Scan(v, lines).categories
  {
    ScanCategoriesFrom(v, lines);
    ScanCategoriesDistinct(v, lines);
    ScanCategoriesComplete(v, lines);
  }

  /** Once a non-empty name is found, later lines leave it alone. */
  lemma {:induction false} ScanKeepsName(v: Vocabulary, lines: seq<string>, m: nat)
    requires m <= |lines| && !Falsy(Scan(v, lines[..m]).shopName)
    ensures Scan(v, lines).shopName == Scan(v, lines[..m]).shopName
    decreases |lines| - m
  {
    if m < |lines| {
      ScanStep(v, lines, m);
      VisitKeeps(v, Scan(v, lines[..m]), lines[m]);
      ScanKeepsName(v, lines, m + 1);
    } else {
      assert lines[..m] == lines;
    }
  }

  /** Before any heading no name is set, and a name, once set, is the heading text of some line. */
  lemma {:induction false} ScanName(v: Vocabulary, lines: seq<string>)
    ensures (forall k :: 0 <= k < |lines| ==> !IsHeading(lines[k])) ==> Scan(v, lines).shopName.None?
    ensures Scan(v, lines).shopName.Some? ==> exists k :: 0 <= k < |lines| && IsHeading(lines[k]) && Scan(v, lines).shopName.value == Heading(lines[k])
  {
    if lines != [] {
      var n := |lines| - 1;
      var init := lines[..n];
      ScanName(v, init);
      if Scan(v, lines).shopName != Scan(v, init).shopName {
        assert Scan(v, lines).shopName == Some(Heading(lines[n]));
      } else if Scan(v, init).shopName.Some? {
        var k :| 0 <= k < |init| && IsHeading(init[k]) && Scan(v, init).shopName.value == Heading(init[k]);
        assert lines[k] == init[k];
      }
    }
  }

  /** The shop name is the text of the first heading, when that text is not empty. */
  lemma FirstHeadingIsName(v: Vocabulary, lines: seq<string>, p: nat)
    requires p < |lines| && IsHeading(lines[p]) && Heading(lines[p]) != []
    requires forall k :: 0 <= k < p ==> !IsHeading(lines[k])
    ensures Scan(v, lines).shopName == Some(Heading(lines[p]))
  {
    ScanStep(v, lines, p);
    ScanName(v, lines[..p]);
    VisitFields(v, Scan(v, lines[..p]), lines[p]);
    ScanKeepsName(v, lines, p + 1);
  }

  /** An address, once set, stays. */
  lemma {:induction false} ScanKeepsAddress(v: Vocabulary, lines: seq<string>, m: nat)
    requires m <= |lines| && !Falsy(Scan(v, lines[..m]).address)
    ensures Scan(v, lines).address == Scan(v, lines[..m]).address
    decreases |lines| - m
  {
    if m < |lines| {
      ScanStep(v, lines, m);
      VisitKeeps(v, Scan(v, lines[..m]), lines[m]);
      ScanKeepsAddress(v, lines, m + 1);
    } else {
      assert lines[..m] == lines;
    }
  }

  /** No address comes before the first address line, and an address is always an address line of the input. */
  lemma {:induction false} ScanAddress(v: Vocabulary, lines: seq<string>)
    ensures (forall k :: 0 <= k < |lines| ==> !AddressLine(v, lines[k])) ==> Scan(v, lines).address.None?
    ensures Scan(v, lines).address.Some? ==> AddressLine(v, Scan(v, lines).address.value) && Scan(v, lines).address.value in lines
  {
    if lines != [] {
      var n := |lines| - 1;
      var init := lines[..n];
      ScanAddress(v, init);
      if Scan(v, init).address.Some? {
        assert Scan(v, init).address.value in init;
      }
    }
  }

  /**
   * The address is the first line that looks like an address and is of the
   * right length, when that line is not a heading.
   */
  lemma FirstAddressLine(v: Vocabulary, lines: seq<string>, p: nat)
    requires p < |lines| && AddressLine(v, lines[p]) && !IsHeading(lines[p])
    requires forall k :: 0 <= k < p ==> !AddressLine(v, lines[k])
    ensures Scan(v, lines).address == Some(lines[p])
  {
    ScanStep(v, lines, p);
    ScanAddress(v, lines[..p]);
    VisitFields(v, Scan(v, lines[..p]), lines[p]);
    ScanKeepsAddress(v, lines, p + 1);
  }

  /** LongerFirst orders strings by length, so the sort is well defined. */
  lemma LongerFirstPreorder()
    ensures Sorting.TotalPreorder(LongerFirst)
  {
  }

  /** The result lists the collected categories longest first, each once, and passes the name and address through. */
  lemma FinishSorted(v: Vocabulary, lines: seq<string>)
    ensures var r := Finish(Scan(v, lines));
            multiset(r.allCategories) == multiset(Scan(v, lines).categories)
            && (forall i, j :: 0 <= i < j < |r.allCategories| ==> Text.Utf16Length(r.allCategories[i]) >= Text.Utf16Length(r.allCategories[j]))
            && Distinct(r.allCategories)
            && r.shopName == Scan(v, lines).shopName && r.address == Scan(v, lines).address
  {
    var cats := Scan(v, lines).categories;
    LongerFirstPreorder();
    Sorting.SortBySorted(cats, LongerFirst);
    ScanCategoriesDistinct(v, lines);
    Sorting.SortByDistinct(cats, LongerFirst, (c: string) => c);
  }

  /**
   * The primary category is one of the longest collected, and is absent
   * exactly when no category was collected.
   */
  lemma FinishPrimary(v: Vocabulary, lines: seq<string>)
    ensures var r := Finish(Scan(v, lines));
            (r.category.None? <==> Scan(v, lines).categories == [])
            && (r.category.Some? ==>
                  r.category.value in Scan(v, lines).categories
                  && forall c :: c in Scan(v, lines).categories ==> Text.Utf16Length(c) <= Text.Utf16Length(r.category.value))
  {
    ScanCategoriesFrom(v, lines);
    LongestFirst(Scan(v, lines).categories);
  }

  /** Sorted longest first, a list of non-empty strings starts with one of its longest. */
  lemma LongestFirst(cats: seq<string>)
    requires forall c :: c in cats ==> c != []
    ensures var sorted := Sorting.SortBy(cats, LongerFirst);
            (sorted == [] <==> cats == [])
            && (sorted != [] ==> sorted[0] != [] && sorted[0] in cats && forall c :: c in cats ==> Text.Utf16Length(c) <= Text.Utf16Length(sorted[0]))
  {
    var sorted := Sorting.SortBy(cats, LongerFirst);
    LongerFirstPreorder();
    Sorting.SortBySorted(cats, LongerFirst);
    if sorted != [] {
      assert sorted[0] in multiset(cats);
      assert sorted[0] in cats;
      forall c | c in cats
        ensures Text.Utf16Length(c) <= Text.Utf16Length(sorted[0])
      {
        assert c in multiset(sorted);
        var j :| 0 <= j < |sorted| && sorted[j] == c;
        if j > 0 {
          assert LongerFirst(sorted[0], sorted[j]);
        }
      }
    } else {
      assert |cats| == 0;
    }
  }

}
