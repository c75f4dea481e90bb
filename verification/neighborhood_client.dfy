/**
 * src/screens/profile/NeighborhoodRegistrationScreen.tsx, extractNeighborhood:
 * the client reads administrative units (province, city, district) from the
 * feature texts by their Korean and Japanese suffixes, infers the country when
 * the response carries no code, and composes a display name.
 */
module NeighborhoodClient {
  import opened Wrappers
  import opened Text
  import Geocoding

  datatype Context = Context(id: Option<string>, shortCode: Option<string>, text: Option<string>)

  /** A feature: text, properties.country_code, place_name and context. */
  datatype Feature = Feature(text: Option<string>, countryCode: Option<string>, placeName: Option<string>, context: Option<seq<Context>>)

  /** englishName is always null here; a separate request fills it in. */
  datatype NeighborhoodResult = NeighborhoodResult(neighborhood: string, displayName: string, englishName: Option<string>)

  datatype Admin = Admin(province: string, city: string, district: string)

  datatype Scan = Scan(countryCode: string, admin: Admin)

  const EmptyScan := Scan("", Admin("", "", ""))

  // ---------------------------------------------------------------- patterns

  /** poiPatterns, case-insensitive: a landmark rather than an administrative unit. */
  predicate IsPoi(text: string)
  {
    var t := Lower(text);
    Contains(t, "테크노밸리") || Contains(t, "산업단지") || Contains(t, "공단") || Contains(t, "타워")
    || Contains(t, "빌딩") || Contains(t, "몰") || Contains(t, "센터") || Contains(t, "tower")
    || Contains(t, "building") || Contains(t, "mall") || Contains(t, "center") || Contains(t, "station")
    || EndsWith(text, "역")
  }

  /** metropolitanCities (lines 140-142). */
  const MetropolitanCities: seq<string> := [
    "서울", "서울특별시", "부산", "부산광역시", "대구", "대구광역시",
    "인천", "인천광역시", "광주", "광주광역시", "대전", "대전광역시",
    "울산", "울산광역시", "세종", "세종특별자치시"]

  predicate IsMetropolitan(text: string)
  {
    exists k :: 0 <= k < |MetropolitanCities| && Contains(text, MetropolitanCities[k])
  }

  predicate KoreanProvince(t: string)
  {
    EndsWith(t, "도") || EndsWith(t, "특별시") || EndsWith(t, "광역시") || EndsWith(t, "특별자치시") || EndsWith(t, "특별자치도")
  }

  predicate KoreanCity(t: string) { EndsWith(t, "시") || EndsWith(t, "군") }

  predicate KoreanDistrict(t: string) { EndsWith(t, "구") }

  predicate JapanesePrefecture(t: string)
  {
    EndsWith(t, "都") || EndsWith(t, "道") || EndsWith(t, "府") || EndsWith(t, "県")
  }

  predicate JapaneseCity(t: string) { EndsWith(t, "市") || EndsWith(t, "町") || EndsWith(t, "村") }

  predicate JapaneseDistrict(t: string) { EndsWith(t, "区") }

  /** extractFromText (lines 145-184): each empty level takes the first text that fits it. */
  function ExtractFromText(a: Admin, text: string): (b: Admin)
    ensures text == [] || IsPoi(text) ==> b == a
    ensures a.province != [] ==> b.province == a.province
    ensures a.city != [] ==> b.city == a.city
    ensures a.district != [] ==> b.district == a.district
    ensures b.province == a.province || b.province == text
    ensures b.city == a.city || b.city == text
    ensures b.district == a.district || b.district == text
  {
    if text == [] || IsPoi(text) then a
    else
      var province := if KoreanProvince(text) && a.province == [] then text else a.province;
      var province' := if KoreanCity(text) && IsMetropolitan(text) && province == [] then text else province;
      var city := if KoreanCity(text) && !IsMetropolitan(text) && a.city == [] then text else a.city;
      var district := if KoreanDistrict(text) && a.district == [] then text else a.district;
      var province'' := if JapanesePrefecture(text) && province' == [] then text else province';
      var city' := if JapaneseCity(text) && city == [] then text else city;
      var district' := if JapaneseDistrict(text) && district == [] then text else district;
      Admin(province'', city', district')
  }

  /** The admin levels after each text of ts in turn. */
  function ExtractAll(a: Admin, ts: seq<string>): (b: Admin)
    ensures a.province != [] ==> b.province == a.province
    ensures a.city != [] ==> b.city == a.city
    ensures a.district != [] ==> b.district == a.district
  {
    if ts == [] then a else ExtractFromText(ExtractAll(a, ts[..|ts| - 1]), ts[|ts| - 1])
  }

  function TrimAll(parts: seq<string>): (r: seq<string>)
    ensures |r| == |parts|
    ensures forall i :: 0 <= i < |parts| ==> r[i] == Trim(parts[i])
  {
    seq(|parts|, i requires 0 <= i < |parts| => Trim(parts[i]))
  }

  /** The texts of a feature's place_name: split on ',' and trimmed. */
  function PlaceNameParts(f: Feature): seq<string>
  {
    if f.placeName.Some? && f.placeName.value != [] then TrimAll(Split(f.placeName.value, ',')) else []
  }

  /** One context entry (lines 206-215): a country short_code, then its text. */
  function StepContext(s: Scan, c: Context): Scan
  {
    var code :=
      if c.id.Some? && StartsWith(c.id.value, "country") && c.shortCode.Some? && c.shortCode.value != []
      then Take(Upper(c.shortCode.value), 2) else s.countryCode;
    Scan(code, ExtractFromText(s.admin, OptOrElse(c.text, "")))
  }

  function ScanContexts(s: Scan, cs: seq<Context>): Scan
  {
    if cs == [] then s else StepContext(ScanContexts(s, cs[..|cs| - 1]), cs[|cs| - 1])
  }

  /** The loop body for one feature (lines 186-217). */
  function ScanFeature(s: Scan, f: Feature): Scan
  {
    var code := if f.countryCode.Some? && f.countryCode.value != [] then Take(Upper(f.countryCode.value), 2) else s.countryCode;
    var admin := ExtractAll(ExtractFromText(s.admin, OptOrElse(f.text, "")), PlaceNameParts(f));
    var s' := Scan(code, admin);
    if f.context.Some? then ScanContexts(s', f.context.value) else s'
  }

  function ScanFeatures(fs: seq<Feature>): Scan
  {
    if fs == [] then EmptyScan else ScanFeature(ScanFeatures(fs[..|fs| - 1]), fs[|fs| - 1])
  }

  // ---------------------------------------------------------------- composing the name

  predicate KoreanUnit(name: string) { KoreanProvince(name) || KoreanCity(name) }

  predicate JapaneseUnit(name: string) { JapanesePrefecture(name) || JapaneseCity(name) }

  /** `[province, city, district].some(name => name && /...$/.test(name))` for the Korean units. */
  predicate AnyKoreanUnit(a: Admin)
  {
    KoreanUnit(a.province) || KoreanUnit(a.city) || KoreanUnit(a.district)
  }

  /** The same test for the Japanese units. */
  predicate AnyJapaneseUnit(a: Admin)
  {
    JapaneseUnit(a.province) || JapaneseUnit(a.city) || JapaneseUnit(a.district)
  }

  /** Lines 221-235: with no code, Korean units imply KR before Japanese units imply JP. */
  function InferCountry(code: string, a: Admin): (c: string)
    ensures code != [] ==> c == code
    ensures code == [] && AnyKoreanUnit(a) ==> c == "KR"
    ensures code == [] && !AnyKoreanUnit(a) && AnyJapaneseUnit(a) ==> c == "JP"
    ensures c == [] <==> (code == [] && !AnyKoreanUnit(a) && !AnyJapaneseUnit(a))
  {
    if code == [] && (a.province != [] || a.city != [] || a.district != []) then
      if AnyKoreanUnit(a) then "KR"
      else if AnyJapaneseUnit(a) then "JP"
      else code
    else code
  }

  /** Lines 237-279: the display name for the inferred country, before the fallback. */
  function ComposeName(code: string, a: Admin): (name: string)
    ensures code == "KR" && a.province != [] && IsMetropolitan(a.province) && a.district != [] ==>
              name == a.province + " " + a.district
    ensures (code == "KR" && !(a.province != [] && IsMetropolitan(a.province) && a.district != [])
             && a.province != [] && a.city != []) ==>
              name == a.province + " " + a.city
    ensures code != "KR" && code != "JP" ==> name == OrElse(a.city, OrElse(a.district, a.province))
  {
    if code == "KR" then
      if a.province != [] && IsMetropolitan(a.province) && a.district != [] then a.province + " " + a.district
      else if a.province != [] && a.city != [] then a.province + " " + a.city
      else if a.province != [] && a.district != [] then a.province + " " + a.district
      else OrElse(a.district, OrElse(a.city, a.province))
    else if code == "JP" then
      if a.province != [] && (EndsWith(a.province, "都") || EndsWith(a.province, "道")) && a.district != [] then a.province + " " + a.district
      else if a.province != [] && a.city != [] then a.province + " " + a.city
      else if a.province != [] && a.district != [] then a.province + " " + a.district
      else OrElse(a.district, OrElse(a.city, a.province))
    else OrElse(a.city, OrElse(a.district, a.province))
  }

  /** `feature.text || feature.place_name?.split(',')[0] || ''`. */
  function FallbackText(f: Feature): string
  {
    OptOrElse(f.text, if f.placeName.Some? then Split(f.placeName.value, ',')[0] else "")
  }

  /** Lines 281-290: the first feature whose fallback text is non-empty and not a landmark. */
  function FirstNonPoi(fs: seq<Feature>): (name: string)
    ensures name != [] ==> !IsPoi(name) && exists i :: 0 <= i < |fs| && FallbackText(fs[i]) == name
    ensures name == [] <==> forall i :: 0 <= i < |fs| ==> FallbackText(fs[i]) == [] || IsPoi(FallbackText(fs[i]))
  {
    if fs == [] then ""
    else if FallbackText(fs[0]) != [] && !IsPoi(FallbackText(fs[0])) then FallbackText(fs[0])
    else
      var rest := FirstNonPoi(fs[1..]);
      assert forall i :: 1 <= i < |fs| ==> fs[1..][i - 1] == fs[i];
      rest
  }

  /** What extractNeighborhood returns. */
  function Extract(features: seq<Feature>): (r: Option<NeighborhoodResult>)
    ensures features == [] ==> r.None?
    ensures r.Some? ==> r.value.englishName.None?
    ensures r.Some? ==> r.value.displayName == Trim(r.value.displayName)
  {
    if features == [] then None
    else
      var scan := ScanFeatures(features);
      var code := InferCountry(scan.countryCode, scan.admin);
      var name := OrElse(ComposeName(code, scan.admin), FirstNonPoi(features));
      if name == [] then None
      else
        TrimIdempotent(name);
        var displayName := Trim(name);
        Some(NeighborhoodResult(Geocoding.NeighborhoodKey(code, displayName), displayName, None))
  }

  /** The loop body for one feature (lines 186-217). */
  method ScanOne(scan: Scan, feature: Feature) returns (next: Scan)
    ensures next == ScanFeature(scan, feature)
  {
    var code := scan.countryCode;
    if feature.countryCode.Some? && feature.countryCode.value != [] {
      code := Take(Upper(feature.countryCode.value), 2);
    }
    var admin := ExtractFromText(scan.admin, OptOrElse(feature.text, ""));
    admin := ExtractParts(admin, PlaceNameParts(feature));
    next := Scan(code, admin);
    if feature.context.Some? {
      next := ScanContextList(next, feature.context.value);
    }
  }

  /** The loop over the place_name parts (lines 197-202). */
  method ExtractParts(start: Admin, parts: seq<string>) returns (admin: Admin)
    ensures admin == ExtractAll(start, parts)
  {
    admin := start;
    for j := 0 to |parts|
      invariant admin == ExtractAll(start, parts[..j])
    {
      assert parts[..j + 1][..j] == parts[..j];
      admin := ExtractFromText(admin, parts[j]);
    }
    assert parts[..|parts|] == parts;
  }

  /** The loop over the context entries (lines 205-216). */
  method ScanContextList(before: Scan, cs: seq<Context>) returns (next: Scan)
    ensures next == ScanContexts(before, cs)
  {
    next := before;
    for j := 0 to |cs|
      invariant next == ScanContexts(before, cs[..j])
    {
      assert cs[..j + 1][..j] == cs[..j];
      next := StepContext(next, cs[j]);
    }
    assert cs[..|cs|] == cs;
  }

  /** The fallback loop (lines 281-290): the first usable feature text, or "". */
  method FindFallback(features: seq<Feature>) returns (name: string)
    ensures name == FirstNonPoi(features)
  {
    name := "";
    var k := 0;
    while k < |features|
      invariant 0 <= k <= |features|
      invariant FirstNonPoi(features) == FirstNonPoi(features[k..])
    {
      var text := FallbackText(features[k]);
      if text != [] && !IsPoi(text) {
        name := text;
        return;
      }
      assert features[k..][1..] == features[k + 1..];
      k := k + 1;
    }
    assert features[k..] == [];
  }

  /** extractNeighborhood (lines 128-301). */
  method ExtractNeighborhood(features: seq<Feature>) returns (r: Option<NeighborhoodResult>)
    ensures r == Extract(features)
  {
    if features == [] {
      return None;
    }
    var scan := EmptyScan;
    for i := 0 to |features|
      invariant scan == ScanFeatures(features[..i])
    {
      assert features[..i + 1][..i] == features[..i];
      scan := ScanOne(scan, features[i]);
    }
    assert features[..|features|] == features;
    var code := InferCountry(scan.countryCode, scan.admin);
    var displayName := ComposeName(code, scan.admin);
    if displayName == [] {
      displayName := FindFallback(features);
    }
    if displayName == [] {
      return None;
    }
    displayName := Trim(displayName);
    r := Some(NeighborhoodResult(Geocoding.NeighborhoodKey(code, displayName), displayName, None));
  }

  /** Once a level holds a name, no later feature replaces it: the first match wins. */
  lemma {:induction false} FirstMatchWins(fs: seq<Feature>, k: nat)
    requires k <= |fs|
    ensures ScanFeatures(fs[..k]).admin.district != [] ==> ScanFeatures(fs).admin.district == ScanFeatures(fs[..k]).admin.district
    ensures ScanFeatures(fs[..k]).admin.city != [] ==> ScanFeatures(fs).admin.city == ScanFeatures(fs[..k]).admin.city
    ensures ScanFeatures(fs[..k]).admin.province != [] ==> ScanFeatures(fs).admin.province == ScanFeatures(fs[..k]).admin.province
    decreases |fs|
  {
    if k < |fs| {
      var init := fs[..|fs| - 1];
      assert init[..k] == fs[..k];
      FirstMatchWins(init, k);
      var s := ScanFeatures(init);
      var f := fs[|fs| - 1];
      var code := if f.countryCode.Some? && f.countryCode.value != [] then Take(Upper(f.countryCode.value), 2) else s.countryCode;
      var admin := ExtractAll(ExtractFromText(s.admin, OptOrElse(f.text, "")), PlaceNameParts(f));
      if f.context.Some? {
        ContextsKeepAdmin(Scan(code, admin), f.context.value);
      }
    } else {
      assert fs[..k] == fs;
    }
  }

  lemma {:induction false} ContextsKeepAdmin(s: Scan, cs: seq<Context>)
    ensures s.admin.province != [] ==> ScanContexts(s, cs).admin.province == s.admin.province
    ensures s.admin.city != [] ==> ScanContexts(s, cs).admin.city == s.admin.city
    ensures s.admin.district != [] ==> ScanContexts(s, cs).admin.district == s.admin.district
  {
    if cs != [] {
      ContextsKeepAdmin(s, cs[..|cs| - 1]);
    }
  }

  /** A result parses back into the inferred code and the display name, when neither holds a colon. */
  lemma ExtractThenParse(features: seq<Feature>)
    requires Extract(features).Some?
    requires var scan := ScanFeatures(features);
             ':' !in InferCountry(scan.countryCode, scan.admin) && ':' !in Extract(features).value.displayName
    ensures var scan := ScanFeatures(features);
            Geocoding.ParseNeighborhood(Extract(features).value.neighborhood)
            == Geocoding.Parsed(InferCountry(scan.countryCode, scan.admin), Extract(features).value.displayName)
  {
    var scan := ScanFeatures(features);
    Geocoding.ParseNeighborhoodRoundTrip(InferCountry(scan.countryCode, scan.admin), Extract(features).value.displayName);
  }

  /** A district text fills the empty district level. */
  lemma DistrictExample()
    ensures ExtractFromText(Admin("서울특별시", "", ""), "강남구") == Admin("서울특별시", "", "강남구")
  {
    DistrictNotPoi();
    DistrictLevels();
  }

  lemma DistrictNotPoi()
    ensures !IsPoi("강남구")
  {
    var t := "강남구";
    assert Lower(t) == t;
    assert forall k :: 0 <= k < |t| ==> t[k] in {'강', '남', '구'};
    forall pat: string | pat != [] && pat[0] !in {'강', '남', '구'}
      ensures !Contains(t, pat)
    {
      if Contains(t, pat) {
        ContainsChars(t, pat);
      }
    }
  }

  lemma DistrictLevels()
    ensures !KoreanProvince("강남구") && !KoreanCity("강남구") && KoreanDistrict("강남구")
    ensures !JapanesePrefecture("강남구") && !JapaneseCity("강남구") && !JapaneseDistrict("강남구")
  {
    var t := "강남구";
    assert t[|t| - 1..] == "구";
  }

  /** A landmark text changes nothing. */
  lemma LandmarkExample()
    ensures ExtractFromText(Admin("", "", ""), "롯데타워") == Admin("", "", "")
  {
    assert Lower("롯데타워") == "롯데타워";
    assert OccursAt("롯데타워", "타워", 2);
  }

  /** A metropolitan city and its district make the Korean display name. */
  lemma ComposeExample()
    ensures ComposeName("KR", Admin("서울특별시", "", "강남구")) == "서울특별시 강남구"
  {
    assert OccursAt("서울특별시", "서울", 0);
    assert Contains("서울특별시", MetropolitanCities[0]);
  }
}
