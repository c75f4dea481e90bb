/**
 * server/services/GeocodingService.ts: the features of a reverse-geocoding
 * response become a stored neighborhood key "CC:displayName", and a stored key
 * splits back into its country code and display name. The HTTP request is
 * not part of this model; the features are a parameter.
 */
module Geocoding {
  import opened Wrappers
  import opened Text

  /** An entry of a feature's context array. */
  datatype Context = Context(id: Option<string>, shortCode: Option<string>, text: Option<string>)

  /**
   * A MapTiler feature: place_type[0], type, properties.country_code, text,
   * place_name and context, each possibly absent.
   */
  datatype Feature = Feature(
    placeTypeFirst: Option<string>, kind: Option<string>, countryCode: Option<string>,
    text: Option<string>, placeName: Option<string>, context: Option<seq<Context>>)

  datatype GeocodingResult = GeocodingResult(neighborhood: string, displayName: string, countryCode: string)

  /** The three names the scan collects. */
  datatype Scan = Scan(countryCode: string, cityName: string, districtName: string)

  const EmptyScan := Scan("", "", "")

  // ---------------------------------------------------------------- parseNeighborhood

  datatype Parsed = Parsed(countryCode: string, displayName: string)

  /** parseNeighborhood (lines 141-158). */
  function ParseNeighborhood(neighborhood: string): (p: Parsed)
    ensures neighborhood == [] ==> p == Parsed("", "")
    ensures CountChar(neighborhood, ':') == 1 ==> p.countryCode + ":" + p.displayName == neighborhood
    ensures CountChar(neighborhood, ':') != 1 ==> p == Parsed("", neighborhood)
    ensures ':' !in p.countryCode && (CountChar(neighborhood, ':') == 1 ==> ':' !in p.displayName)
  {
    if neighborhood == [] then Parsed("", "")
    else
      var parts := Split(neighborhood, ':');
      if |parts| == 2 then Parsed(parts[0], parts[1]) else Parsed("", neighborhood)
  }

  /** The key extractNeighborhood stores: "CC:name", or the bare name without a code. */
  function NeighborhoodKey(countryCode: string, displayName: string): string
  {
    if countryCode != [] then countryCode + ":" + displayName else displayName
  }

  /** Parsing a stored key gives back the code and the name, when neither holds a colon. */
  lemma ParseNeighborhoodRoundTrip(countryCode: string, displayName: string)
    requires ':' !in countryCode && ':' !in displayName
    ensures ParseNeighborhood(NeighborhoodKey(countryCode, displayName)) == Parsed(countryCode, displayName)
  {
    if countryCode != [] {
      SplitJoin([countryCode, displayName], ':');
      assert Join([countryCode, displayName], [':']) == countryCode + ":" + displayName;
    } else if displayName != [] {
      assert CountChar(displayName, ':') == 0;
    }
  }

  // ---------------------------------------------------------------- extractNeighborhood

  /** `place_name?.split(',')[0]`: None when place_name is absent. */
  function FirstPart(placeName: Option<string>): Option<string>
  {
    if placeName.Some? then Some(Split(placeName.value, ',')[0]) else None
  }

  /** `(s || '').toUpperCase().slice(0, 2)`. */
  function CodeOf(s: string): (r: string)
    ensures |r| <= 2
  {
    Take(Upper(s), 2)
  }

  /** `feature.text || feature.place_name?.split(',')[0] || ''`. */
  function FeatureName(f: Feature): string
  {
    OptOrElse(f.text, OptOrElse(FirstPart(f.placeName), ""))
  }

  /** One pass of the loop body over a feature (lines 66-85), before its context. */
  function StepFeature(s: Scan, f: Feature): (t: Scan)
    ensures s.districtName != [] ==> t.districtName == s.districtName
    ensures s.cityName != [] ==> t.cityName == s.cityName
  {
    var placeType := if f.placeTypeFirst.Some? && f.placeTypeFirst.value != [] then f.placeTypeFirst else f.kind;
    var code :=
      if placeType == Some("country") || (f.countryCode.Some? && f.countryCode.value != [])
      then CodeOf(OptOrElse(f.countryCode, OptOrElse(f.text, "")))
      else s.countryCode;
    var district :=
      if (placeType == Some("district") || placeType == Some("sublocality") || placeType == Some("neighbourhood"))
         && s.districtName == []
      then FeatureName(f) else s.districtName;
    var city :=
      if (placeType == Some("place") || placeType == Some("municipality") || placeType == Some("city"))
         && s.cityName == []
      then FeatureName(f) else s.cityName;
    Scan(code, city, district)
  }

  /** One pass of the inner loop over a context entry (lines 90-102). */
  function StepContext(s: Scan, c: Context): (t: Scan)
    ensures s.countryCode != [] ==> t.countryCode == s.countryCode
    ensures s.districtName != [] ==> t.districtName == s.districtName
    ensures s.cityName != [] ==> t.cityName == s.cityName
  {
    var ctxType := if c.id.Some? then Some(Split(c.id.value, '.')[0]) else None;
    var code :=
      if ctxType == Some("country") && s.countryCode == []
      then CodeOf(OptOrElse(c.shortCode, OptOrElse(c.text, "")))
      else s.countryCode;
    var district :=
      if (ctxType == Some("district") || ctxType == Some("locality")) && s.districtName == []
      then OptOrElse(c.text, "") else s.districtName;
    var city :=
      if (ctxType == Some("place") || ctxType == Some("municipality")) && s.cityName == []
      then OptOrElse(c.text, "") else s.cityName;
    Scan(code, city, district)
  }

  /** The scan after the context entries cs, in order. */
  function ScanContexts(s: Scan, cs: seq<Context>): (t: Scan)
    ensures s.countryCode != [] ==> t.countryCode == s.countryCode
    ensures s.districtName != [] ==> t.districtName == s.districtName
    ensures s.cityName != [] ==> t.cityName == s.cityName
  {
    if cs == [] then s else StepContext(ScanContexts(s, cs[..|cs| - 1]), cs[|cs| - 1])
  }

  /** The whole loop body for one feature. */
  function ScanFeature(s: Scan, f: Feature): (t: Scan)
    ensures s.districtName != [] ==> t.districtName == s.districtName
    ensures s.cityName != [] ==> t.cityName == s.cityName
  {
    var afterFeature := StepFeature(s, f);
    if f.context.Some? then ScanContexts(afterFeature, f.context.value) else afterFeature
  }

  /** The scan after the features fs, in order. */
  function ScanFeatures(fs: seq<Feature>): Scan
  {
    if fs == [] then EmptyScan else ScanFeature(ScanFeatures(fs[..|fs| - 1]), fs[|fs| - 1])
  }

  /** The first district and the first city found are kept by every later feature. */
  lemma {:induction false} FirstNameWins(fs: seq<Feature>, k: nat)
    requires k <= |fs|
    ensures ScanFeatures(fs[..k]).districtName != [] ==> ScanFeatures(fs).districtName == ScanFeatures(fs[..k]).districtName
    ensures ScanFeatures(fs[..k]).cityName != [] ==> ScanFeatures(fs).cityName == ScanFeatures(fs[..k]).cityName
    decreases |fs|
  {
    if k < |fs| {
      var init := fs[..|fs| - 1];
      assert init[..k] == fs[..k];
      FirstNameWins(init, k);
    } else {
      assert fs[..k] == fs;
    }
  }

  /** KR and JP prefer the district, other countries the city (lines 108-116). */
  function PreferredName(s: Scan): (name: string)
    ensures (s.countryCode == "KR" || s.countryCode == "JP") && s.districtName != [] ==> name == s.districtName
    ensures s.countryCode != "KR" && s.countryCode != "JP" && s.cityName != [] ==> name == s.cityName
    ensures name == [] <==> s.districtName == [] && s.cityName == []
  {
    if s.countryCode == "KR" || s.countryCode == "JP" then OrElse(s.districtName, s.cityName)
    else OrElse(s.cityName, s.districtName)
  }

  /** The name chosen before trimming: the preferred one, else the first feature's own name. */
  function RawDisplayName(s: Scan, features: seq<Feature>): (name: string)
    ensures PreferredName(s) != [] ==> name == PreferredName(s)
    ensures PreferredName(s) == [] && features != [] ==> name == FeatureName(features[0])
    ensures PreferredName(s) == [] && features == [] ==> name == []
  {
    var preferred := PreferredName(s);
    if preferred != [] then preferred
    else if features != [] then FeatureName(features[0])
    else ""
  }

  /** Lines 118-135: no name gives null; otherwise the trimmed name, its key and the code or "XX". */
  function Finish(s: Scan, features: seq<Feature>): (r: Option<GeocodingResult>)
    ensures r.None? <==> RawDisplayName(s, features) == []
    ensures r.Some? ==> r.value.displayName == Trim(RawDisplayName(s, features))
    ensures r.Some? ==> r.value.neighborhood == NeighborhoodKey(s.countryCode, r.value.displayName)
    ensures r.Some? ==> r.value.countryCode == (if s.countryCode == [] then "XX" else s.countryCode)
  {
    var name := RawDisplayName(s, features);
    if name == [] then None
    else
      var displayName := Trim(name);
      Some(GeocodingResult(NeighborhoodKey(s.countryCode, displayName), displayName, OrElse(s.countryCode, "XX")))
  }

  /** What extractNeighborhood returns. */
  function Extract(features: seq<Feature>): Option<GeocodingResult>
  {
    Finish(ScanFeatures(features), features)
  }

  /** extractNeighborhood (lines 59-136). */
  method ExtractNeighborhood(features: seq<Feature>) returns (r: Option<GeocodingResult>)
    ensures r == Extract(features)
  {
    var scan := EmptyScan;
    for i := 0 to |features|
      invariant scan == ScanFeatures(features[..i])
    {
      assert features[..i + 1][..i] == features[..i];
      var feature := features[i];
      scan := StepFeature(scan, feature);
      if feature.context.Some? {
        var cs := feature.context.value;
        ghost var start := scan;
        for j := 0 to |cs|
          invariant scan == ScanContexts(start, cs[..j])
        {
          assert cs[..j + 1][..j] == cs[..j];
          scan := StepContext(scan, cs[j]);
        }
        assert cs[..|cs|] == cs;
      }
    }
    assert features[..|features|] == features;
    var displayName := PreferredName(scan);
    if displayName == [] {
      displayName := if features != [] then FeatureName(features[0]) else "";
    }
    if displayName == [] {
      return None;
    }
    displayName := Trim(displayName);
    r := Some(GeocodingResult(NeighborhoodKey(scan.countryCode, displayName), displayName, OrElse(scan.countryCode, "XX")));
  }

  /** The stored code has at most two characters and is never empty. */
  lemma ResultCode(features: seq<Feature>)
    ensures Extract(features).Some? ==> 1 <= |Extract(features).value.countryCode| <= 2
  {
    var s := ScanFeatures(features);
    if features != [] {
      CodeLength(features);
    }
  }

  /** The collected code has at most two characters. */
  lemma {:induction false} CodeLength(fs: seq<Feature>)
    ensures |ScanFeatures(fs).countryCode| <= 2
  {
    if fs != [] {
      CodeLength(fs[..|fs| - 1]);
      var last := fs[|fs| - 1];
      var s := StepFeature(ScanFeatures(fs[..|fs| - 1]), last);
      if last.context.Some? {
        ContextCodeLength(s, last.context.value);
      }
    }
  }

  lemma {:induction false} ContextCodeLength(s: Scan, cs: seq<Context>)
    requires |s.countryCode| <= 2
    ensures |ScanContexts(s, cs).countryCode| <= 2
  {
    if cs != [] {
      ContextCodeLength(s, cs[..|cs| - 1]);
    }
  }

  /** A result parses back into its display name and, when one was found, its code. */
  lemma ExtractThenParse(features: seq<Feature>)
    requires Extract(features).Some?
    requires ':' !in ScanFeatures(features).countryCode && ':' !in Extract(features).value.displayName
    ensures ParseNeighborhood(Extract(features).value.neighborhood)
            == Parsed(ScanFeatures(features).countryCode, Extract(features).value.displayName)
  {
    ParseNeighborhoodRoundTrip(ScanFeatures(features).countryCode, Extract(features).value.displayName);
  }
}
