/**
 * src/lib/tasteType.ts: the client's copy of the taste-type classification,
 * plus lookups of stored types, profile texts and axis labels.
 */
module TasteTypeClient {
  import opened Wrappers
  import opened Text
  import Server = TasteTypeServer

  /**
   * calculateTasteType (lines 46-89): the client's copy classifies every
   * score vector exactly as the server's does, and always into letters the
   * label tables know.
   */
  function Calculate(s: Server.Scores): (r: Server.TasteType)
    ensures r == Server.Calculate(s)
    ensures ValidAxes(r.axes) && r.subtype in "AT"
  {
    var boldness := s.boldness.GetOr(0);
    var acidity := s.acidity.GetOr(0);
    var richness := s.richness.GetOr(0);
    var experimental := s.experimental.GetOr(0);
    var spiciness := s.spiciness.GetOr(0);
    var sweetness := s.sweetness.GetOr(0);
    var umami := s.umami.GetOr(0);
    var axes := Server.Axes(
      if (boldness + spiciness) as real / 2.0 > 0.0 then 'H' else 'L',
      if acidity - richness > 0 then 'A' else 'D',
      if sweetness - umami > 0 then 'S' else 'U',
      if experimental > 0 then 'P' else 'F');
    var stability := (Server.Abs(boldness) + Server.Abs(acidity) + Server.Abs(richness)
      + Server.Abs(experimental) + Server.Abs(spiciness) + Server.Abs(sweetness)
      + Server.Abs(umami)) as real / 7.0;
    var subtype := if stability >= 1.2 then 'A' else 'T';
    var baseCode := [axes.intensity, axes.flavor, axes.pleasure, axes.exploration];
    Server.TasteType(baseCode, subtype, baseCode + "-" + [subtype], axes, Server.RoundHalfUp(stability * 100.0))
  }

  /** A user's taste_result: a stored type (newer users) and/or the raw scores. */
  datatype TasteResult = TasteResult(tasteType: Option<Server.TasteType>, scores: Option<Server.Scores>)

  /** getTasteType (lines 99-113). */
  function GetTasteType(r: Option<TasteResult>): (t: Option<Server.TasteType>)
    ensures r.None? ==> t.None?
    ensures r.Some? && r.value.tasteType.Some? ==> t == r.value.tasteType
    ensures t.Some? && r.value.tasteType.None? ==> Server.IsValidTasteType(t.value.fullType)
    ensures t.None? <==> r.None? || (r.value.tasteType.None? && r.value.scores.None?)
  {
    if r.None? then None
    else if r.value.tasteType.Some? then r.value.tasteType
    else if r.value.scores.Some? then
      Server.CalculateIsValid(r.value.scores.value);
      Some(Calculate(r.value.scores.value))
    else None
  }

  // ---------------------------------------------------------------- labels

  datatype Lang = Ko | En

  datatype Localized = Localized(ko: string, en: string)
  {
    function In(lang: Lang): string
    {
      match lang
      case Ko => ko
      case En => en
    }
  }

  predicate ValidAxes(a: Server.Axes)
  {
    a.intensity in "LH" && a.flavor in "DA" && a.pleasure in "US" && a.exploration in "FP"
  }

  /** TASTE_TYPE_LABELS (lines 119-140). */
  function IntensityLabel(c: char): Localized
  {
    if c == 'L' then Localized("저자극", "Mild") else Localized("고자극", "Bold")
  }

  function FlavorLabel(c: char): Localized
  {
    if c == 'D' then Localized("깊이", "Deep") else Localized("산뜻", "Fresh")
  }

  function PleasureLabel(c: char): Localized
  {
    if c == 'U' then Localized("감칠", "Savory") else Localized("달콤", "Sweet")
  }

  function ExplorationLabel(c: char): Localized
  {
    if c == 'F' then Localized("안정", "Familiar") else Localized("탐험", "Adventurous")
  }

  function SubtypeLabel(c: char): Localized
  {
    if c == 'A' then Localized("확신형", "Assertive") else Localized("탐구형", "Turbulent")
  }

  /** The five labels of a type, axis order first and subtype last. */
  function DescriptionLabels(t: Server.TasteType, lang: Lang): seq<string>
  {
    [IntensityLabel(t.axes.intensity).In(lang), FlavorLabel(t.axes.flavor).In(lang),
     PleasureLabel(t.axes.pleasure).In(lang), ExplorationLabel(t.axes.exploration).In(lang),
     SubtypeLabel(t.subtype).In(lang)]
  }

  /**
   * getTasteTypeDescription (lines 238-247): the labels joined by single
   * spaces. No label holds a space, so splitting the description on ' '
   * gives the five labels back.
   */
  function Description(t: Server.TasteType, lang: Lang): (r: string)
    requires ValidAxes(t.axes) && t.subtype in "AT"
    ensures Split(r, ' ') == DescriptionLabels(t, lang)
    ensures |Split(r, ' ')| == 5
  {
    var labels := DescriptionLabels(t, lang);
    IntensityNoSpace(t.axes.intensity, lang);
    FlavorNoSpace(t.axes.flavor, lang);
    PleasureNoSpace(t.axes.pleasure, lang);
    ExplorationNoSpace(t.axes.exploration, lang);
    SubtypeNoSpace(t.subtype, lang);
    assert forall k :: 0 <= k < |labels| ==> ' ' !in labels[k];
    SplitJoin(labels, ' ');
    Join(labels, " ")
  }

  lemma IntensityNoSpace(c: char, lang: Lang)
    ensures ' ' !in IntensityLabel(c).In(lang)
  {
  }

  lemma FlavorNoSpace(c: char, lang: Lang)
    ensures ' ' !in FlavorLabel(c).In(lang)
  {
  }

  lemma PleasureNoSpace(c: char, lang: Lang)
    ensures ' ' !in PleasureLabel(c).In(lang)
  {
  }

  lemma ExplorationNoSpace(c: char, lang: Lang)
    ensures ' ' !in ExplorationLabel(c).In(lang)
  {
  }

  lemma SubtypeNoSpace(c: char, lang: Lang)
    ensures ' ' !in SubtypeLabel(c).In(lang)
  {
  }

  // ---------------------------------------------------------------- profiles

  datatype Profile = Profile(name: Localized, tagline: Localized)

  /** TASTE_TYPE_PROFILES (lines 145-210), keyed by base code. */
  const Profiles: map<string, Profile> := map[
      "LDUF" := Profile(Localized("보존자형 미식가", "The Preserver"),
        Localized("익숙하고 깊은 맛을 안정적으로 즐긴다. 한 번 마음에 든 메뉴를 꾸준히 찾는 편이다.",
                  "Enjoys familiar, deep flavors consistently. Once a favorite is found, they stick with it.")),
      "LDUP" := Profile(Localized("연구자형 미식가", "The Researcher"),
        Localized("은은한 깊이의 차이를 탐구한다. 전통적인 맛 속에서도 새로운 발견을 즐긴다.",
                  "Explores subtle depth differences. Finds new discoveries within traditional flavors.")),
      "LDSF" := Profile(Localized("감상자형 미식가", "The Appreciator"),
        Localized("묵직하고 달콤한 맛을 여유롭게 음미한다. 음식에서 위안을 찾는 타입이다.",
                  "Savors rich and sweet flavors leisurely. Finds comfort in food.")),
      "LDSP" := Profile(Localized("조합자형 미식가", "The Composer"),
        Localized("깊은 풍미와 달콤함을 새롭게 조합한다. 익숙한 재료에서 창의적인 맛을 만들어낸다.",
                  "Composes new combinations of deep flavors and sweetness. Creates creative tastes from familiar ingredients.")),
      "LAUF" := Profile(Localized("절제자형 미식가", "The Minimalist"),
        Localized("산뜻하고 정돈된 감칠을 선호한다. 과하지 않은 균형을 중요하게 여긴다.",
                  "Prefers crisp, refined umami. Values balance without excess.")),
      "LAUP" := Profile(Localized("탐색자형 미식가", "The Explorer"),
        Localized("가볍고 산뜻한 메뉴를 중심으로 새로운 맛을 시도한다.",
                  "Tries new flavors centered on light, fresh dishes.")),
      "LASF" := Profile(Localized("감각자형 미식가", "The Sensualist"),
        Localized("상큼하고 달콤한 조합을 즐긴다. 밝고 경쾌한 취향을 가졌다.",
                  "Enjoys fresh and sweet combinations. Has a bright, cheerful palate.")),
      "LASP" := Profile(Localized("창안자형 미식가", "The Innovator"),
        Localized("산미와 단맛의 새로운 조합에 관심이 많다. 트렌드를 빠르게 받아들인다.",
                  "Interested in new acid-sweet combinations. Quick to adopt trends.")),
      "HDUF" := Profile(Localized("장인형 미식가", "The Artisan"),
        Localized("강하고 묵직한 맛을 선호한다. 취향이 분명하고 흔들림이 적다.",
                  "Prefers strong, heavy flavors. Has clear, unwavering tastes.")),
      "HDUP" := Profile(Localized("추적자형 미식가", "The Pursuer"),
        Localized("더 진하고 강한 맛을 찾아다닌다. 깊은 맛에 대한 집요함이 있다.",
                  "Seeks richer, stronger flavors. Persistent about deep tastes.")),
      "HDSF" := Profile(Localized("집중자형 미식가", "The Concentrator"),
        Localized("강렬한 단맛과 묵직함에 몰입한다. 확실한 쾌감을 추구한다.",
                  "Immerses in intense sweetness and richness. Seeks definite pleasure.")),
      "HDSP" := Profile(Localized("도전자형 미식가", "The Challenger"),
        Localized("자극적이고 달콤한 조합을 과감히 시도한다. 강한 맛의 한계를 넓혀간다.",
                  "Boldly tries stimulating sweet combinations. Pushes the boundaries of bold flavors.")),
      "HAUF" := Profile(Localized("정밀자형 미식가", "The Precisionist"),
        Localized("매콤하고 산뜻한 자극을 또렷하게 즐긴다. 취향의 기준이 명확하다.",
                  "Clearly enjoys spicy, fresh stimulation. Has precise taste standards.")),
      "HAUP" := Profile(Localized("개척자형 미식가", "The Pioneer"),
        Localized("날카롭고 강한 맛을 적극적으로 탐험한다. 새로운 메뉴에 개방적이다.",
                  "Actively explores sharp, strong flavors. Open to new dishes.")),
      "HASF" := Profile(Localized("조율자형 미식가", "The Harmonizer"),
        Localized("매콤달콤한 균형을 안정적으로 즐긴다. 강하지만 조화로운 맛을 선호한다.",
                  "Steadily enjoys spicy-sweet balance. Prefers strong but harmonious flavors.")),
      "HASP" := Profile(Localized("선도자형 미식가", "The Trendsetter"),
        Localized("강렬하고 생동감 있는 맛을 앞서 경험한다. 새로운 조합을 이끄는 타입이다.",
                  "Experiences vibrant, intense flavors first. Leads in new combinations."))
  ]

  /** A base code: the four axis letters without the subtype. */
  predicate IsBaseCode(c: string)
  {
    |c| == 4 && c[0] in "LH" && c[1] in "DA" && c[2] in "US" && c[3] in "FP"
  }

  /** The profile table has exactly the 16 base codes as keys. */
  lemma ProfileKeysAreBaseCodes()
    ensures forall c :: c in Profiles <==> IsBaseCode(c)
  {
    var keys := {"LDUF", "LDUP", "LDSF", "LDSP", "LAUF", "LAUP", "LASF", "LASP",
                 "HDUF", "HDUP", "HDSF", "HDSP", "HAUF", "HAUP", "HASF", "HASP"};
    assert Profiles.Keys == keys;
    BaseCodesListed(keys);
  }

  lemma BaseCodesListed(keys: set<string>)
    requires keys == {"LDUF", "LDUP", "LDSF", "LDSP", "LAUF", "LAUP", "LASF", "LASP",
                      "HDUF", "HDUP", "HDSF", "HDSP", "HAUF", "HAUP", "HASF", "HASP"}
    ensures forall c :: c in keys <==> IsBaseCode(c)
  {
    forall c | IsBaseCode(c)
      ensures c in keys
    {
      assert c == [c[0], c[1], c[2], c[3]];
    }
  }

  /** The argument of getTasteTypeProfile: a base code string or a TasteType object. */
  datatype ProfileKey = ByCode(code: string) | ByType(t: Server.TasteType)

  datatype NameTagline = NameTagline(name: string, tagline: string)

  /** getTasteTypeProfile (lines 219-229). */
  function GetTasteTypeProfile(key: ProfileKey, lang: Lang): (r: Option<NameTagline>)
    ensures r.None? <==> !IsBaseCode(if key.ByCode? then key.code else key.t.baseCode)
  {
    ProfileKeysAreBaseCodes();
    var baseCode := if key.ByCode? then key.code else key.t.baseCode;
    if baseCode !in Profiles then None
    else Some(NameTagline(Profiles[baseCode].name.In(lang), Profiles[baseCode].tagline.In(lang)))
  }

  /** Every calculated type has a profile; a full code such as "HASP-A" has none. */
  lemma ProfileLookups(s: Server.Scores, code: string, lang: Lang)
    ensures GetTasteTypeProfile(ByType(Calculate(s)), lang).Some?
    ensures Server.IsTypeCode(code) ==> GetTasteTypeProfile(ByCode(code), lang).None?
  {
  }
}
