/** The deterministic parts of the back end's AI service: the data-type names,
    the polygon `geocode_location` builds around a geocoded place, the water-body
    rule and nearby-place list of `analyze_satellite_data`, the extraction of the
    JSON object from the language model's answer, and the validation that
    decides between that object and the default results. The geocoder's and the
    language model's answers, and the JSON parser, are parameters. */
module AiService {
  import opened Wrappers

  // ---------------------------------------------------------------------------
  // Data-type names

  /** `data_type_names.get(data_type, data_type)`. */
  function DataTypeName(dataType: string): (name: string)
    ensures dataType == "S2MSI2A" ==> name == "Sentinel-2 Level 2A (multispectral imagery)"
    ensures dataType == "S1GRD" ==> name == "Sentinel-1 SAR (radar imagery)"
    ensures dataType == "S3OLCI" ==> name == "Sentinel-3 OLCI (ocean and land color)"
    ensures dataType !in {"S2MSI2A", "S1GRD", "S3OLCI"} ==> name == dataType
  {
    if dataType == "S2MSI2A" then "Sentinel-2 Level 2A (multispectral imagery)"
    else if dataType == "S1GRD" then "Sentinel-1 SAR (radar imagery)"
    else if dataType == "S3OLCI" then "Sentinel-3 OLCI (ocean and land color)"
    else dataType
  }

  // ---------------------------------------------------------------------------
  // Geocoding

  /** A `[lat, lng]` point. */
  datatype Point = Point(lat: real, lng: real)

  /** The geocoder's `boundingbox`: four numbers in the order min lat, max lat, min lng, max lng;
      a value whose conversion or unpacking raises `ValueError` (the wrong count, non-numeric
      text), which the bounding-box handler catches; or a value on which `float` raises
      `TypeError` (None, or a None entry), which only the outer handler catches. */
  datatype RawBbox = Corners(minLat: real, maxLat: real, minLng: real, maxLng: real) | Unreadable | IllTyped

  /** A geocoded place. */
  datatype Place = Place(latitude: real, longitude: real, address: string, boundingBox: Option<RawBbox>)

  /** The place gets the default square: it has no `boundingbox`, or one that raises `ValueError`. */
  predicate FallsBackToSquare(place: Place) {
    place.boundingBox.None? || place.boundingBox.value.Unreadable?
  }

  /** `max(0.01, min(0.2, 0.5 / (address_length / 20)))`; an empty address divides by zero. */
  function Delta(addressLength: nat): (d: Option<real>)
    ensures d.None? <==> addressLength == 0
    ensures d.Some? ==> 0.01 <= d.value <= 0.2
    ensures d.Some? && 50 <= addressLength <= 1000 ==> d.value == 10.0 / addressLength as real
    ensures 0 < addressLength <= 50 ==> d == Some(0.2)
    ensures addressLength >= 1000 ==> d == Some(0.01)
  {
    if addressLength == 0 then None
    else
      var raw := 0.5 / (addressLength as real / 20.0);
      assert raw == 10.0 / addressLength as real;
      Some(if 0.2 <= raw then 0.2 else if raw <= 0.01 then 0.01 else raw)
  }

  /** The corners (min lat, min lng), (min lat, max lng), (max lat, max lng), (max lat, min lng). */
  function BboxPolygon(minLat: real, maxLat: real, minLng: real, maxLng: real): (p: seq<Point>)
    ensures |p| == 4
    ensures p[0].lat == p[1].lat == minLat && p[2].lat == p[3].lat == maxLat
    ensures p[0].lng == p[3].lng == minLng && p[1].lng == p[2].lng == maxLng
  {
    [Point(minLat, minLng), Point(minLat, maxLng), Point(maxLat, maxLng), Point(maxLat, minLng)]
  }

  /** `geocode_location` on the geocoder's answer (None: not found, or the service failed):
      the place's own bounding box when it has a readable one, otherwise a square of half-width
      `Delta` around the point; (None, None) when nothing was found, when the bounding box
      raises `TypeError`, or when the address is empty (division by zero). */
  function GeocodeLocation(answer: Option<Place>): (r: Option<(seq<Point>, string)>)
    ensures answer.None? ==> r.None?
    ensures r.Some? ==> answer.Some? && r.value.1 == answer.value.address && |r.value.0| == 4
    ensures answer.Some? && answer.value.boundingBox.Some? && answer.value.boundingBox.value.Corners? ==>
              var b := answer.value.boundingBox.value;
              r == Some((BboxPolygon(b.minLat, b.maxLat, b.minLng, b.maxLng), answer.value.address))
    ensures answer.Some? && answer.value.boundingBox.Some? && answer.value.boundingBox.value.IllTyped? ==> r.None?
    ensures answer.Some? && FallsBackToSquare(answer.value) ==>
              (r.None? <==> |answer.value.address| == 0)
              && (r.Some? ==>
                    var d := Delta(|answer.value.address|).value;
                    var c := answer.value;
                    r.value.0 == BboxPolygon(c.latitude - d, c.latitude + d, c.longitude - d, c.longitude + d)
                    && 0.01 <= d <= 0.2)
  {
    match answer
    case None => None
    case Some(place) =>
      if place.boundingBox.Some? && place.boundingBox.value.Corners? then
        var b := place.boundingBox.value;
        Some((BboxPolygon(b.minLat, b.maxLat, b.minLng, b.maxLng), place.address))
      else if place.boundingBox.Some? && place.boundingBox.value.IllTyped? then None
      else
        match Delta(|place.address|)
        case None => None
        case Some(delta) =>
          Some((BboxPolygon(place.latitude - delta, place.latitude + delta,
                            place.longitude - delta, place.longitude + delta), place.address))
  }

  /** The fallback square is centred on the geocoded point. */
  lemma SquareCentredOnPlace(place: Place)
    requires FallsBackToSquare(place) && |place.address| > 0
    ensures var p := GeocodeLocation(Some(place)).value.0;
            (p[0].lat + p[2].lat) / 2.0 == place.latitude && (p[0].lng + p[2].lng) / 2.0 == place.longitude
            && p[2].lat - p[0].lat == p[2].lng - p[0].lng == 2.0 * Delta(|place.address|).value
  {
  }

  // ---------------------------------------------------------------------------
  // Water-body detection

  const WaterBodyKeywords: seq<string> :=
    ["sea", "ocean", "gulf", "bay", "strait", "channel", "mediterranean", "atlantic", "pacific",
     "indian ocean", "arctic"]

  /** Lower-casing of the ASCII letters. */
  function Lower(s: string): (r: string)
    ensures |r| == |s|
    ensures forall i :: 0 <= i < |s| ==> r[i] == if 'A' <= s[i] <= 'Z' then s[i] - 'A' + 'a' else s[i]
  {
    seq(|s|, i requires 0 <= i < |s| => if 'A' <= s[i] <= 'Z' then s[i] - 'A' + 'a' else s[i])
  }

  /** `sub` occurs in `s` starting at index `i`. */
  predicate OccursAt(s: string, sub: string, i: nat) {
    i + |sub| <= |s| && s[i..i + |sub|] == sub
  }

  /** Python's `sub in s`. */
  predicate Contains(s: string, sub: string) {
    exists i: nat :: i <= |s| && OccursAt(s, sub, i)
  }

  /** An address that names a water body. */
  predicate IsWaterAddress(address: string) {
    exists k :: 0 <= k < |WaterBodyKeywords| && Contains(Lower(address), WaterBodyKeywords[k])
  }

  /** Python truthiness of a reverse-geocoding answer: a place with a non-empty address. */
  predicate HasAddress(answer: Option<string>) { answer.Some? && answer.value != "" }

  /** The addresses of the sampled points: every even index, when the geocoder answered it. */
  function Sampled(answers: seq<Option<string>>): (r: seq<string>)
    ensures |r| <= |answers|
    ensures forall a :: a in r ==> a != ""
  {
    if |answers| == 0 then []
    else
      var n := |answers| - 1;
      Sampled(answers[..n]) + if n % 2 == 0 && HasAddress(answers[n]) then [answers[n].value] else []
  }

  function WaterCount(addresses: seq<string>): (c: nat)
    ensures c <= |addresses|
  {
    if |addresses| == 0 then 0
    else WaterCount(addresses[..|addresses| - 1]) + if IsWaterAddress(addresses[|addresses| - 1]) then 1 else 0
  }

  /** The sampled addresses other than the centre's, in point order. */
  function NearbyPlaces(addresses: seq<string>, centre: string): (r: seq<string>)
    ensures |r| <= |addresses|
    ensures forall a :: a in r ==> a in addresses && a != centre
    ensures forall a :: a in addresses && a != centre ==> a in r
  {
    if |addresses| == 0 then []
    else
      var n := |addresses| - 1;
      var front := NearbyPlaces(addresses[..n], centre);
      assert forall a :: a in addresses ==> a in addresses[..n] || a == addresses[n];
      front + if addresses[n] != centre then [addresses[n]] else []
  }

  /** The keyword loop on the centre's address, with its `break`. */
  method ScanCentre(address: string) returns (isWaterBody: bool, waterBodyName: Option<string>)
    ensures isWaterBody <==> IsWaterAddress(address)
    ensures waterBodyName == if isWaterBody then Some(address) else None
  {
    var addressLower := Lower(address);
    isWaterBody, waterBodyName := false, None;
    var k := 0;
    while k < |WaterBodyKeywords|
      invariant 0 <= k <= |WaterBodyKeywords|
      invariant !isWaterBody && waterBodyName.None?
      invariant forall j :: 0 <= j < k ==> !Contains(addressLower, WaterBodyKeywords[j])
    {
      var keyword := WaterBodyKeywords[k];
      if Contains(addressLower, keyword) {
        isWaterBody, waterBodyName := true, Some(address);
        break;
      }
      k := k + 1;
    }
  }

  /** The loop over the polygon's points: geocode every other point, count water and land
      answers, and collect the addresses that differ from the centre's. */
  method ScanPoints(centre: string, answers: seq<Option<string>>)
    returns (waterBodyCount: nat, landCount: nat, nearestCities: seq<string>)
    ensures waterBodyCount == WaterCount(Sampled(answers))
    ensures waterBodyCount + landCount == |Sampled(answers)|
    ensures nearestCities == NearbyPlaces(Sampled(answers), centre)
  {
    waterBodyCount, landCount, nearestCities := 0, 0, [];
    var i := 0;
    while i < |answers|
      invariant 0 <= i <= |answers|
      invariant waterBodyCount == WaterCount(Sampled(answers[..i]))
      invariant waterBodyCount + landCount == |Sampled(answers[..i])|
      invariant nearestCities == NearbyPlaces(Sampled(answers[..i]), centre)
    {
      ghost var before := Sampled(answers[..i]);
      assert answers[..i + 1][..i] == answers[..i];
      assert answers[..i + 1][i] == answers[i];
      if !(i % 2 == 0 && HasAddress(answers[i])) {
        assert Sampled(answers[..i + 1]) == before;
      }
      if i % 2 == 0 {
        var loc := answers[i];
        if loc.Some? && loc.value != "" {
          assert Sampled(answers[..i + 1]) == before + [loc.value];
          assert (before + [loc.value])[..|before|] == before;
          var isPointWater := IsWaterAddress(loc.value);
          if isPointWater {
            waterBodyCount := waterBodyCount + 1;
          } else {
            landCount := landCount + 1;
          }
          if loc.value != centre {
            nearestCities := nearestCities + [loc.value];
          }
        }
      }
      i := i + 1;
    }
    assert answers[..i] == answers;
  }

  /** The water verdict: a keyword in the centre's address, or a strict majority of water among
      the answered sample points. */
  predicate WaterVerdict(centre: string, answers: seq<Option<string>>) {
    var sampled := Sampled(answers);
    IsWaterAddress(centre) || (WaterCount(sampled) > |sampled| - WaterCount(sampled) && WaterCount(sampled) > 0)
  }

  /** The water-body part of `analyze_satellite_data` once the centre has an address: the
      keyword scan, the point scan, and the majority rule, which can only set the flag. Only
      the first three nearby places are reported. */
  method DetectWaterBody(centre: string, answers: seq<Option<string>>)
    returns (isWaterBody: bool, waterBodyName: Option<string>, reported: seq<string>)
    ensures isWaterBody <==> WaterVerdict(centre, answers)
    ensures IsWaterAddress(centre) ==> isWaterBody
    ensures waterBodyName.Some? <==> IsWaterAddress(centre)
    ensures waterBodyName.Some? ==> waterBodyName.value == centre
    ensures |reported| <= 3 && reported == ReportedPlaces(NearbyPlaces(Sampled(answers), centre))
    ensures forall a :: a in reported ==> a != centre
  {
    isWaterBody, waterBodyName := ScanCentre(centre);
    var waterBodyCount, landCount, nearestCities := ScanPoints(centre, answers);
    if waterBodyCount > landCount && waterBodyCount > 0 {
      isWaterBody := true;
    }
    reported := ReportedPlaces(nearestCities);
    assert forall a :: a in reported ==> a in nearestCities;
  }

  /** `nearest_cities[:3]`. */
  function ReportedPlaces(nearest: seq<string>): (r: seq<string>)
    ensures |r| == if |nearest| < 3 then |nearest| else 3
    ensures r == nearest[..|r|]
  {
    if |nearest| <= 3 then nearest else nearest[..3]
  }

  /** A polygon is described to the model only when at least three points were given. */
  predicate HasPolygonContext(coordinates: Option<seq<Point>>) {
    coordinates.Some? && |coordinates.value| >= 3
  }

  // ---------------------------------------------------------------------------
  // The model's answer

  /** `text.find(c)`: the first index of `c`, or -1. */
  function Find(text: string, c: char): (i: int)
    ensures -1 <= i < |text|
    ensures i >= 0 ==> text[i] == c && forall j :: 0 <= j < i ==> text[j] != c
    ensures i == -1 ==> forall j :: 0 <= j < |text| ==> text[j] != c
  {
    if |text| == 0 then -1
    else if text[0] == c then 0
    else
      var rest := Find(text[1..], c);
      assert forall j :: 1 <= j < |text| ==> text[j] == text[1..][j - 1];
      if rest == -1 then -1 else rest + 1
  }

  /** `text.rfind(c)`: the last index of `c`, or -1. */
  function RFind(text: string, c: char): (i: int)
    ensures -1 <= i < |text|
    ensures i >= 0 ==> text[i] == c && forall j :: i < j < |text| ==> text[j] != c
    ensures i == -1 ==> forall j :: 0 <= j < |text| ==> text[j] != c
  {
    if |text| == 0 then -1
    else if text[|text| - 1] == c then |text| - 1
    else RFind(text[..|text| - 1], c)
  }

  /** The text handed to the JSON parser: from the first '{' through the last '}' when a '}'
      follows the first '{', otherwise the whole answer. */
  function JsonSpan(text: string): (span: string)
    ensures Find(text, '{') >= 0 && RFind(text, '}') + 1 > Find(text, '{') ==>
              |span| >= 2 && span[0] == '{' && span[|span| - 1] == '}'
              && span == text[Find(text, '{')..RFind(text, '}') + 1]
              && (forall j :: 0 <= j < Find(text, '{') ==> text[j] != '{')
              && (forall j :: RFind(text, '}') < j < |text| ==> text[j] != '}')
    ensures !(Find(text, '{') >= 0 && RFind(text, '}') + 1 > Find(text, '{')) ==> span == text
  {
    var jsonStart := Find(text, '{');
    var jsonEnd := RFind(text, '}') + 1;
    if jsonStart >= 0 && jsonEnd > jsonStart then text[jsonStart..jsonEnd] else text
  }

  /** A parsed JSON value. */
  datatype JsonValue =
    | JNull
    | JBool(b: bool)
    | JNumber(n: real)
    | JString(s: string)
    | JArray(items: seq<JsonValue>)
    | JObject(fields: map<string, JsonValue>)

  const RequiredKeys: set<string> := {"land_cover", "change", "insights"}

  const GeographicOnlyNote: string :=
    "Note: This analysis is based on geographic information only, not satellite imagery."

  /** The default results: an even land-cover split, no change, and three insights. */
  function DefaultResults(locationName: string, startDate: string, endDate: string): (r: JsonValue)
    ensures r.JObject? && r.fields.Keys == RequiredKeys
    ensures r.fields["insights"].JArray? && |r.fields["insights"].items| == 3
  {
    JObject(map[
      "land_cover" := JObject(map["forest" := JNumber(33.3), "urban" := JNumber(33.3), "water" := JNumber(33.4)]),
      "change" := JObject(map["forest_change" := JNumber(0.0), "urban_change" := JNumber(0.0),
                              "water_change" := JNumber(0.0)]),
      "insights" := JArray([
        JString("Analysis for " + locationName + " from " + startDate + " to " + endDate + "."),
        JString("No detailed analysis available. Please try again later."),
        JString("The system is still processing your request.")])])
  }

  /** The default land-cover percentages sum to 100. */
  lemma DefaultLandCoverSumsTo100(locationName: string, startDate: string, endDate: string)
    ensures var lc := DefaultResults(locationName, startDate, endDate).fields["land_cover"].fields;
            lc.Keys == {"forest", "urban", "water"}
            && lc["forest"].n + lc["urban"].n + lc["water"].n == 100.0
  {
  }

  /** The structure check and the note: a JSON object holding all three keys is returned, with
      the note appended to a list of insights; anything else yields the default results. */
  function ValidateAnalysis(parsed: Option<JsonValue>, locationName: string, startDate: string, endDate: string)
    : (r: JsonValue)
    ensures !(parsed.Some? && parsed.value.JObject? && RequiredKeys <= parsed.value.fields.Keys) ==>
              r == DefaultResults(locationName, startDate, endDate)
    ensures parsed.Some? && parsed.value.JObject? && RequiredKeys <= parsed.value.fields.Keys ==>
              r.JObject? && r.fields.Keys == parsed.value.fields.Keys
              && (forall k :: k in r.fields && k != "insights" ==> r.fields[k] == parsed.value.fields[k])
              && (parsed.value.fields["insights"].JArray? ==>
                    r.fields["insights"] == JArray(parsed.value.fields["insights"].items + [JString(GeographicOnlyNote)]))
              && (!parsed.value.fields["insights"].JArray? ==> r == parsed.value)
  {
    match parsed
    case Some(JObject(fields)) =>
      if RequiredKeys <= fields.Keys then
        match fields["insights"]
        case JArray(items) => JObject(fields["insights" := JArray(items + [JString(GeographicOnlyNote)])])
        case _ => JObject(fields)
      else DefaultResults(locationName, startDate, endDate)
    case _ => DefaultResults(locationName, startDate, endDate)
  }

  /** The outcome of `analyze_satellite_data`: without a polygon of at least three points, or
      without an answer from the model, the default results; otherwise the validated parse of
      the answer's JSON span. */
  function AnalyzeSatelliteData(locationName: string, startDate: string, endDate: string,
                                coordinates: Option<seq<Point>>, modelAnswer: Option<string>,
                                parse: string -> Option<JsonValue>): (r: JsonValue)
    ensures !HasPolygonContext(coordinates) || modelAnswer.None? ==> r == DefaultResults(locationName, startDate, endDate)
    ensures r.JObject? && RequiredKeys <= r.fields.Keys
    ensures HasPolygonContext(coordinates) && modelAnswer.Some? ==>
              r == ValidateAnalysis(parse(JsonSpan(modelAnswer.value)), locationName, startDate, endDate)
  {
    if !HasPolygonContext(coordinates) || modelAnswer.None? then DefaultResults(locationName, startDate, endDate)
    else ValidateAnalysis(parse(JsonSpan(modelAnswer.value)), locationName, startDate, endDate)
  }
}
