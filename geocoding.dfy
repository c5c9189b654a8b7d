/**
 * Geocoding helpers: the `lat-lon` cache-key string, and the processing of a geocoder's
 * answer into location options (keep localities, drop repeated geometries, parse points).
 * The geocoder call itself is not modelled; its outcome is an input.
 */
module Geocoding {
  import opened Outcomes
  import Strings
  import opened Sequences

  /** The exceptions that leave this module. */
  datatype GeoError =
    | GeneralGeocodingError
    | UnableToLocateCoordinates
    | GeocodingDataParseError
    | KeyError
    | TypeError
    | IndexError

  /** `isinstance(e, GeneralGeocodingError)`: the module's own exceptions subclass it. */
  predicate IsGeocodingError(e: GeoError)
  {
    e.GeneralGeocodingError? || e.UnableToLocateCoordinates? || e.GeocodingDataParseError?
  }

  /** A GeoJSON geometry, compared by value. */
  datatype Geometry = Point(x: real, y: real)

  /**
   * One GeoJSON feature. Each `Option` is a key that may be missing: `properties.quality`,
   * `properties.lat`, `properties.lng` (as their `str()`), `properties.address` and `geometry`.
   */
  datatype Feature = Feature(
    quality: Option<string>,
    lat: Option<string>,
    lng: Option<string>,
    address: Option<string>,
    geometry: Option<Geometry>)

  /** A non-empty `geojson` dictionary; `features` is its `"features"` entry, when present. */
  datatype GeoJson = GeoJson(features: Option<seq<Feature>>)

  /** The geocoder's answer: its `ok` flag and its `geojson`, `None` when that dictionary is empty. */
  datatype GeoResponse = GeoResponse(ok: bool, geojson: Option<GeoJson>)

  datatype LocationPoint = LocationPoint(latLon: string, address: string)

  // ---------------------------------------------------------------------------------------
  // The lat-lon key

  /** `get_lat_lon_from_attribute`: the first two `-`-separated pieces. */
  function GetLatLonFromAttribute(latLon: string): (r: Result<(string, string), GeoError>)
    ensures r.Err? <==> '-' !in latLon
    ensures r.Err? ==> r.error == IndexError
    ensures r.Ok? ==> '-' !in r.value.0 && '-' !in r.value.1
  {
    var pieces := Strings.Split(latLon, '-');
    if |pieces| < 2 then Err(IndexError) else Ok((pieces[0], pieces[1]))
  }

  /** The key format `f"{lat}-{lng}"`. */
  function FormatLatLon(lat: string, lng: string): string
  {
    lat + "-" + lng
  }

  /** Splitting inverts the key format when neither coordinate contains `-`. */
  lemma LatLonRoundTrip(lat: string, lng: string)
    requires '-' !in lat && '-' !in lng
    ensures GetLatLonFromAttribute(FormatLatLon(lat, lng)) == Ok((lat, lng))
  {
    assert Strings.Join([lat, lng], "-") == FormatLatLon(lat, lng);
    Strings.SplitJoin([lat, lng], '-');
  }

  /** A key with exactly one `-` is rebuilt exactly from its two pieces. */
  lemma LatLonRebuilt(latLon: string)
    requires |Strings.Split(latLon, '-')| == 2
    ensures GetLatLonFromAttribute(latLon).Ok?
    ensures FormatLatLon(GetLatLonFromAttribute(latLon).value.0, GetLatLonFromAttribute(latLon).value.1) == latLon
  {
    var pieces := Strings.Split(latLon, '-');
    Strings.JoinSplit(latLon, '-');
    assert Strings.Join(pieces, "-") == pieces[0] + "-" + Strings.Join(pieces[1..], "-");
  }

  /** A negative latitude (a leading `-`) yields an empty latitude piece. */
  lemma NegativeLatitude(latLon: string)
    requires |latLon| > 0 && latLon[0] == '-'
    ensures GetLatLonFromAttribute(latLon).Ok? && GetLatLonFromAttribute(latLon).value.0 == ""
  {
    assert Strings.IndexOf(latLon, '-') == 0;
  }

  // ---------------------------------------------------------------------------------------
  // Locality filter

  const Locality: string := "Locality"

  predicate IsLocality(f: Feature)
  {
    f.quality == Some(Locality)
  }

  /** The features whose quality is `"Locality"`, in order, each as often as it occurs. */
  function KeepLocalities(fs: seq<Feature>): (r: seq<Feature>)
    ensures forall f :: f in r <==> f in fs && IsLocality(f)
    ensures IsSubsequence(r, fs)
    ensures forall f :: multiset(r)[f] == if IsLocality(f) then multiset(fs)[f] else 0
    decreases |fs|
  {
    if |fs| == 0 then []
    else
      var last := fs[|fs| - 1];
      var init := fs[..|fs| - 1];
      assert fs == init + [last];
      var kept := KeepLocalities(init);
      if IsLocality(last) then kept + [last] else kept
  }

  /**
   * `__filter_geo_locations`: an empty geojson raises `UnableToLocateCoordinates`, a missing
   * feature list `TypeError`, a feature without a quality `KeyError`.
   */
  function FilterGeoLocations(response: GeoResponse): (r: Result<seq<Feature>, GeoError>)
    ensures response.geojson.None? ==> r == Err(UnableToLocateCoordinates)
    ensures r.Ok? ==>
      && response.geojson.Some? && response.geojson.value.features.Some?
      && r.value == KeepLocalities(response.geojson.value.features.value)
    ensures r.Err? && response.geojson.Some? && response.geojson.value.features.Some? ==>
      && r.error == KeyError
      && exists f :: f in response.geojson.value.features.value && f.quality.None?
    ensures response.geojson.Some? && response.geojson.value.features.None? ==> r == Err(TypeError)
    ensures response.geojson.Some? && response.geojson.value.features.Some? ==>
      (r.Err? <==> exists f :: f in response.geojson.value.features.value && f.quality.None?)
  {
    match response.geojson
    case None => Err(UnableToLocateCoordinates)
    case Some(json) =>
      match json.features
      case None => Err(TypeError)
      case Some(fs) =>
        if exists f :: f in fs && f.quality.None? then Err(KeyError) else Ok(KeepLocalities(fs))
  }

  // ---------------------------------------------------------------------------------------
  // Removing repeated geometries

  /** `__get_locations_geometry`: `item["geometry"]` for each item, `KeyError` when one lacks it. */
  function LocationsGeometry(fs: seq<Feature>): (r: Result<seq<Geometry>, GeoError>)
    ensures |fs| == 0 ==> r == Ok([])
    ensures r.Ok? <==> forall k :: 0 <= k < |fs| ==> fs[k].geometry.Some?
    ensures r.Err? ==> r.error == KeyError
    ensures r.Ok? ==> |r.value| == |fs| && forall k :: 0 <= k < |fs| ==> r.value[k] == fs[k].geometry.value
  {
    if |fs| == 0 then Ok([])
    else if forall k :: 0 <= k < |fs| ==> fs[k].geometry.Some? then
      Ok(seq(|fs|, k requires 0 <= k < |fs| => fs[k].geometry.value))
    else Err(KeyError)
  }

  /**
   * `__filter_location_duplicates`, one step per element: keep the element unless its
   * geometry is among the geometries of what was kept so far.
   */
  function FilterDuplicates(fs: seq<Feature>): (r: Result<seq<Feature>, GeoError>)
    ensures r.Err? ==> r.error == KeyError
    ensures r.Ok? ==> |r.value| <= |fs| && forall f :: f in r.value ==> f in fs
    decreases |fs|
  {
    if |fs| == 0 then Ok([])
    else
      match FilterDuplicates(fs[..|fs| - 1])
      case Err(e) => Err(e)
      case Ok(kept) => DuplicateStep(kept, fs[|fs| - 1])
  }

  function DuplicateStep(kept: seq<Feature>, next: Feature): Result<seq<Feature>, GeoError>
  {
    match LocationsGeometry(kept)
    case Err(e) => Err(e)
    case Ok(geometries) =>
      if next.geometry.Some? && next.geometry.value in geometries then Ok(kept) else Ok(kept + [next])
  }

  /** The loop of `__filter_location_duplicates`. */
  method FilterLocationDuplicates(fs: seq<Feature>) returns (r: Result<seq<Feature>, GeoError>)
    ensures r == FilterDuplicates(fs)
  {
    var kept: seq<Feature> := [];
    var i := 0;
    while i < |fs|
      invariant 0 <= i <= |fs|
      invariant FilterDuplicates(fs[..i]) == Ok(kept)
    {
      assert fs[..i + 1][..i] == fs[..i];
      var geometries := LocationsGeometry(kept);
      if geometries.Err? {
        ErrorPersists(fs, i + 1);
        return Err(geometries.error);
      }
      var g := fs[i].geometry;
      if !(g.Some? && g.value in geometries.value) {
        kept := kept + [fs[i]];
      }
      i := i + 1;
    }
    assert fs[..i] == fs;
    r := Ok(kept);
  }

  /** Once a prefix fails, every longer prefix fails with the same error. */
  lemma {:induction false} ErrorPersists(fs: seq<Feature>, n: nat)
    requires n <= |fs| && FilterDuplicates(fs[..n]).Err?
    ensures FilterDuplicates(fs) == FilterDuplicates(fs[..n])
    decreases |fs| - n
  {
    if n < |fs| {
      assert fs[..n + 1][..n] == fs[..n];
      ErrorPersists(fs, n + 1);
    } else {
      assert fs[..n] == fs;
    }
  }

  /** The geometries (present or missing) of a list of features. */
  function GeometrySet(fs: seq<Feature>): set<Option<Geometry>>
  {
    set k | 0 <= k < |fs| :: fs[k].geometry
  }

  /** No earlier feature has the geometry of `fs[i]`. */
  predicate IsFirstOccurrence(fs: seq<Feature>, i: nat)
    requires i < |fs|
  {
    forall j :: 0 <= j < i ==> fs[j].geometry != fs[i].geometry
  }

  /** Reference definition: the features that are the first with their geometry, in order. */
  function FirstOccurrences(fs: seq<Feature>): seq<Feature>
    decreases |fs|
  {
    if |fs| == 0 then []
    else
      var n := |fs| - 1;
      FirstOccurrences(fs[..n]) + if IsFirstOccurrence(fs, n) then [fs[n]] else []
  }

  /**
   * The reference keeps order, keeps no two features with equal geometry, and loses no
   * geometry of the input.
   */
  lemma FirstOccurrencesProperties(fs: seq<Feature>)
    ensures IsSubsequence(FirstOccurrences(fs), fs)
    ensures forall i, j :: 0 <= i < j < |FirstOccurrences(fs)| ==>
      FirstOccurrences(fs)[i].geometry != FirstOccurrences(fs)[j].geometry
    ensures GeometrySet(FirstOccurrences(fs)) == GeometrySet(fs)
  {
    FirstOccurrencesSubsequence(fs);
    FirstOccurrencesDistinct(fs);
    FirstOccurrencesGeometries(fs);
  }

  lemma {:induction false} FirstOccurrencesSubsequence(fs: seq<Feature>)
    ensures IsSubsequence(FirstOccurrences(fs), fs)
    decreases |fs|
  {
    if |fs| > 0 {
      var n := |fs| - 1;
      var init := fs[..n];
      var prev := FirstOccurrences(init);
      FirstOccurrencesSubsequence(init);
      if IsFirstOccurrence(fs, n) {
        var r := prev + [fs[n]];
        assert FirstOccurrences(fs) == r;
        assert r[..|r| - 1] == prev;
      } else {
        assert FirstOccurrences(fs) == prev;
        SubsequenceOfPrefix(prev, fs);
      }
    }
  }

  lemma {:induction false} FirstOccurrencesDistinct(fs: seq<Feature>)
    ensures forall i, j :: 0 <= i < j < |FirstOccurrences(fs)| ==>
      FirstOccurrences(fs)[i].geometry != FirstOccurrences(fs)[j].geometry
    decreases |fs|
  {
    if |fs| > 0 {
      var n := |fs| - 1;
      var init := fs[..n];
      var prev := FirstOccurrences(init);
      FirstOccurrencesDistinct(init);
      if IsFirstOccurrence(fs, n) {
        FirstOccurrencesGeometries(init);
        FirstOccurrenceIff(fs, n);
        var r := prev + [fs[n]];
        assert FirstOccurrences(fs) == r;
        forall i, j | 0 <= i < j < |r| ensures r[i].geometry != r[j].geometry {
          assert r[i] == prev[i];
          if j == |prev| {
            assert prev[i].geometry in GeometrySet(prev);
          } else {
            assert r[j] == prev[j];
          }
        }
      } else {
        assert FirstOccurrences(fs) == prev;
      }
    }
  }

  lemma {:induction false} FirstOccurrencesGeometries(fs: seq<Feature>)
    ensures GeometrySet(FirstOccurrences(fs)) == GeometrySet(fs)
    decreases |fs|
  {
    if |fs| > 0 {
      var n := |fs| - 1;
      var init := fs[..n];
      var prev := FirstOccurrences(init);
      FirstOccurrencesGeometries(init);
      GeometrySetSnoc(fs);
      FirstOccurrenceIff(fs, n);
      if IsFirstOccurrence(fs, n) {
        var r := prev + [fs[n]];
        assert FirstOccurrences(fs) == r;
        GeometrySetSnoc(r);
        assert r[..|r| - 1] == prev;
      } else {
        assert FirstOccurrences(fs) == prev;
      }
    }
  }

  /** The geometries of a list are those of all but its last element, and the last one's. */
  lemma GeometrySetSnoc(fs: seq<Feature>)
    requires |fs| > 0
    ensures GeometrySet(fs) == GeometrySet(fs[..|fs| - 1]) + {fs[|fs| - 1].geometry}
  {
    var init := fs[..|fs| - 1];
    forall g | g in GeometrySet(fs) ensures g in GeometrySet(init) + {fs[|fs| - 1].geometry} {
      var k :| 0 <= k < |fs| && fs[k].geometry == g;
      if k < |init| { assert init[k] == fs[k]; }
    }
    forall g | g in GeometrySet(init) ensures g in GeometrySet(fs) {
      var k :| 0 <= k < |init| && init[k].geometry == g;
      assert fs[k] == init[k];
    }
  }

  /**
   * What `__filter_location_duplicates` computes: it raises `KeyError` exactly when a feature
   * other than the last lacks a geometry (the next round looks up the geometry of every kept
   * feature); otherwise it returns the first feature of each geometry, in order.
   */
  lemma {:induction false} FilterDuplicatesMeaning(fs: seq<Feature>)
    ensures FilterDuplicates(fs).Ok? <==> forall k :: 0 <= k < |fs| - 1 ==> fs[k].geometry.Some?
    ensures FilterDuplicates(fs).Err? ==> FilterDuplicates(fs).error == KeyError
    ensures FilterDuplicates(fs).Ok? ==> FilterDuplicates(fs).value == FirstOccurrences(fs)
    decreases |fs|
  {
    if |fs| > 0 {
      var n := |fs| - 1;
      var init := fs[..n];
      FilterDuplicatesMeaning(init);
      FirstOccurrencesGeometries(init);
      assert forall k :: 0 <= k < n ==> init[k] == fs[k];
      match FilterDuplicates(init)
      case Err(_) =>
      case Ok(kept) =>
        SameGeometries(kept, init, fs[n].geometry);
        FirstOccurrenceIff(fs, n);
    }
  }

  /**
   * Two lists with the same geometries: both or neither have every geometry, and then a
   * geometry is among the first list's exactly when it is among the second's.
   */
  lemma SameGeometries(kept: seq<Feature>, init: seq<Feature>, g: Option<Geometry>)
    requires GeometrySet(kept) == GeometrySet(init)
    ensures LocationsGeometry(kept).Ok? <==> forall k :: 0 <= k < |init| ==> init[k].geometry.Some?
    ensures LocationsGeometry(kept).Ok? ==>
      ((g.Some? && g.value in LocationsGeometry(kept).value) <==> g in GeometrySet(init))
  {
    if forall k :: 0 <= k < |kept| ==> kept[k].geometry.Some? {
      forall k | 0 <= k < |init| ensures init[k].geometry.Some? {
        assert init[k].geometry in GeometrySet(init);
        var j :| 0 <= j < |kept| && kept[j].geometry == init[k].geometry;
      }
      var geometries := LocationsGeometry(kept).value;
      if g.Some? && g.value in geometries {
        var j :| 0 <= j < |kept| && geometries[j] == g.value;
        assert kept[j].geometry in GeometrySet(kept);
      }
      if g in GeometrySet(init) {
        var j :| 0 <= j < |kept| && kept[j].geometry == g;
        assert geometries[j] == g.value;
      }
    } else {
      var j :| 0 <= j < |kept| && kept[j].geometry.None?;
      assert kept[j].geometry in GeometrySet(kept);
      var k :| 0 <= k < |init| && init[k].geometry == kept[j].geometry;
    }
  }

  /** The `n`-th feature is a first occurrence exactly when its geometry is new to the prefix. */
  lemma FirstOccurrenceIff(fs: seq<Feature>, n: nat)
    requires n < |fs|
    ensures IsFirstOccurrence(fs, n) <==> fs[n].geometry !in GeometrySet(fs[..n])
  {
    if !IsFirstOccurrence(fs, n) {
      var k :| 0 <= k < n && fs[k].geometry == fs[n].geometry;
      assert fs[..n][k] == fs[k];
    }
    if fs[n].geometry in GeometrySet(fs[..n]) {
      var k :| 0 <= k < n && fs[..n][k].geometry == fs[n].geometry;
    }
  }

  // ---------------------------------------------------------------------------------------
  // Parsing into location points

  /** One `LocationPoint`, or `None` where a key lookup raises. */
  function ParsePoint(f: Feature): (r: Option<LocationPoint>)
    ensures r.Some? <==> f.lat.Some? && f.lng.Some? && f.address.Some?
    ensures r.Some? ==> r.value == LocationPoint(FormatLatLon(f.lat.value, f.lng.value), f.address.value)
  {
    if f.lat.Some? && f.lng.Some? && f.address.Some? then
      Some(LocationPoint(FormatLatLon(f.lat.value, f.lng.value), f.address.value))
    else None
  }

  /** `__parse_raw_geo_output` as a value: all points, or `GeocodingDataParseError` for any missing key. */
  function ParseRawGeoOutput(fs: seq<Feature>): (r: Result<seq<LocationPoint>, GeoError>)
    ensures r.Err? <==> exists k :: 0 <= k < |fs| && ParsePoint(fs[k]).None?
    ensures r.Err? ==> r.error == GeocodingDataParseError
    ensures r.Ok? ==> |r.value| == |fs| && forall k :: 0 <= k < |fs| ==> Some(r.value[k]) == ParsePoint(fs[k])
  {
    if forall k :: 0 <= k < |fs| ==> ParsePoint(fs[k]).Some? then
      Ok(seq(|fs|, k requires 0 <= k < |fs| => ParsePoint(fs[k]).value))
    else Err(GeocodingDataParseError)
  }

  /** The loop of `__parse_raw_geo_output`: append one point per item, stop at the first failure. */
  method ParseRawGeoOutputLoop(fs: seq<Feature>) returns (r: Result<seq<LocationPoint>, GeoError>)
    ensures r == ParseRawGeoOutput(fs)
  {
    var points: seq<LocationPoint> := [];
    for i := 0 to |fs|
      invariant |points| == i
      invariant forall k :: 0 <= k < i ==> Some(points[k]) == ParsePoint(fs[k])
    {
      var p := ParsePoint(fs[i]);
      if p.None? {
        assert ParsePoint(fs[i]).None?;
        return Err(GeocodingDataParseError);
      }
      points := points + [p.value];
    }
    assert points == ParseRawGeoOutput(fs).value;
    r := Ok(points);
  }

  // ---------------------------------------------------------------------------------------
  // The whole answer

  /**
   * The part of `get_available_location_options` after the geocoder call. `fetch` is `None`
   * when the call raised.
   */
  function LocationOptions(fetch: Option<GeoResponse>): Result<seq<LocationPoint>, GeoError>
  {
    match fetch
    case None => Err(GeneralGeocodingError)
    case Some(response) =>
      if !response.ok then Err(UnableToLocateCoordinates)
      else
        match FilterGeoLocations(response)
        case Err(e) => Err(e)
        case Ok(localities) =>
          if |localities| == 0 then Err(UnableToLocateCoordinates)
          else
            match FilterDuplicates(localities)
            case Err(e) => Err(e)
            case Ok(unique) => ParseRawGeoOutput(unique)
  }

  /** `get_available_location_options`, from the geocoder's outcome on. */
  method GetAvailableLocationOptions(fetch: Option<GeoResponse>) returns (r: Result<seq<LocationPoint>, GeoError>)
    ensures r == LocationOptions(fetch)
  {
    if fetch.None? {
      return Err(GeneralGeocodingError);
    }
    var response := fetch.value;
    if !response.ok {
      return Err(UnableToLocateCoordinates);
    }
    var filtered := FilterGeoLocations(response);
    if filtered.Err? {
      return Err(filtered.error);
    }
    if |filtered.value| == 0 {
      return Err(UnableToLocateCoordinates);
    }
    var unique := FilterLocationDuplicates(filtered.value);
    if unique.Err? {
      return Err(unique.error);
    }
    r := ParseRawGeoOutputLoop(unique.value);
  }

  /**
   * A successful answer is non-empty and holds one point per distinct geometry among the
   * localities, in order; an answer without localities raises `UnableToLocateCoordinates`.
   */
  lemma LocationOptionsMeaning(fetch: Option<GeoResponse>)
    ensures LocationOptions(fetch).Ok? ==>
      && fetch.Some? && fetch.value.ok && fetch.value.geojson.Some?
      && fetch.value.geojson.value.features.Some?
      && var localities := KeepLocalities(fetch.value.geojson.value.features.value);
         && |LocationOptions(fetch).value| >= 1
         && ParseRawGeoOutput(FirstOccurrences(localities)) == LocationOptions(fetch)
    ensures fetch.Some? && fetch.value.ok && FilterGeoLocations(fetch.value) == Ok([]) ==>
      LocationOptions(fetch) == Err(UnableToLocateCoordinates)
  {
    if LocationOptions(fetch).Ok? {
      var localities := KeepLocalities(fetch.value.geojson.value.features.value);
      FilterDuplicatesMeaning(localities);
      FirstOccurrencesProperties(localities);
      assert localities[0].geometry in GeometrySet(localities);
    }
  }
}
