/** The web app's Copernicus helpers: the Well-known Text POLYGON rendering of a
    drawn area (OGC Simple Feature Access, Part 1, section 7) and the mock
    search results used when the back end is unreachable. A coordinate is
    carried as the text JavaScript's number-to-string conversion produces. */
module CopernicusWeb {
  import opened Wrappers

  /** A `[lat, lng]` pair, each number already in its JavaScript string form. */
  datatype Point = Point(lat: string, lng: string)

  const WktPrefix: string := "POLYGON(("
  const WktSuffix: string := "))"
  /** A small square around Barcelona, already closed. */
  const DefaultWkt: string := WktPrefix + "2.1 41.3, 2.3 41.3, 2.3 41.5, 2.1 41.5, 2.1 41.3" + WktSuffix
  const Separator: string := ", "

  /** A point as WKT writes it: longitude first, then latitude. */
  function FormatPoint(p: Point): string {
    p.lng + " " + p.lat
  }

  function FormatPoints(coords: seq<Point>): (r: seq<string>)
    ensures |r| == |coords|
    ensures forall i :: 0 <= i < |coords| ==> r[i] == FormatPoint(coords[i])
  {
    seq(|coords|, i requires 0 <= i < |coords| => FormatPoint(coords[i]))
  }

  /** Appends the first point when it differs from the last, so the ring ends where it starts. */
  function CloseRing(pts: seq<string>): (r: seq<string>)
    requires |pts| > 0
    ensures |r| == |pts| || |r| == |pts| + 1
    ensures r[..|pts|] == pts
    ensures r[0] == r[|r| - 1]
    ensures |r| == |pts| + 1 <==> pts[0] != pts[|pts| - 1]
  {
    if pts[0] != pts[|pts| - 1] then pts + [pts[0]] else pts
  }

  /** `Array.prototype.join(', ')`. */
  function Join(xs: seq<string>): string {
    if |xs| == 0 then "" else if |xs| == 1 then xs[0] else xs[0] + Separator + Join(xs[1..])
  }

  /** `coordinatesToWkt`: the fixed demonstration square for a missing or empty list, otherwise
      the closed ring of "lng lat" points inside `POLYGON((…))`. */
  function CoordinatesToWkt(coords: Option<seq<Point>>): (wkt: string)
    ensures coords.None? || |coords.value| == 0 ==> wkt == DefaultWkt
    ensures |wkt| >= |WktPrefix| + |WktSuffix|
    ensures wkt[..|WktPrefix|] == WktPrefix && wkt[|wkt| - |WktSuffix|..] == WktSuffix
  {
    if coords.None? || |coords.value| == 0 then DefaultWkt
    else WktPrefix + Join(CloseRing(FormatPoints(coords.value))) + WktSuffix
  }

  // ---------------------------------------------------------------------------
  // Reading a WKT polygon back

  /** Index of the first `c` in `s`, or |s| when there is none. */
  function FirstIndex(s: string, c: char): (i: nat)
    ensures i <= |s|
    ensures i < |s| ==> s[i] == c
    ensures forall j :: 0 <= j < i ==> s[j] != c
  {
    if |s| == 0 || s[0] == c then 0 else 1 + FirstIndex(s[1..], c)
  }

  /** Splits a point list at each ", ". */
  function SplitPoints(s: string): seq<string>
    decreases |s|
  {
    var i := FirstIndex(s, ',');
    if i == |s| then [s]
    else [s[..i]] + SplitPoints(s[if i + 2 <= |s| then i + 2 else |s|..])
  }

  /** The point texts of a `POLYGON((…))` string, if it has that frame. */
  function ParseWkt(wkt: string): Option<seq<string>> {
    if |wkt| >= |WktPrefix| + |WktSuffix| && wkt[..|WktPrefix|] == WktPrefix
       && wkt[|wkt| - |WktSuffix|..] == WktSuffix
    then Some(SplitPoints(wkt[|WktPrefix|..|wkt| - |WktSuffix|]))
    else None
  }

  /** Reads "lng lat" back as a point, splitting at the first space. */
  function ParsePoint(t: string): Point {
    var i := FirstIndex(t, ' ');
    if i == |t| then Point("", t) else Point(t[i + 1..], t[..i])
  }

  predicate CommaFree(s: string) { forall i :: 0 <= i < |s| ==> s[i] != ',' }

  predicate PlainNumber(s: string) { CommaFree(s) && forall i :: 0 <= i < |s| ==> s[i] != ' ' }

  lemma {:induction false} SplitJoin(xs: seq<string>)
    requires |xs| >= 1
    requires forall k :: 0 <= k < |xs| ==> CommaFree(xs[k])
    ensures SplitPoints(Join(xs)) == xs
  {
    if |xs| == 1 {
      assert FirstIndex(xs[0], ',') == |xs[0]|;
    } else {
      var s := Join(xs);
      var head := xs[0];
      assert s == head + Separator + Join(xs[1..]);
      assert s[|head|] == ',';
      assert forall j :: 0 <= j < |head| ==> s[j] == head[j];
      FirstIndexAt(s, ',', |head|);
      assert s[..|head|] == head;
      assert s[|head| + 2..] == Join(xs[1..]);
      SplitJoin(xs[1..]);
    }
  }

  lemma {:induction false} FirstIndexAt(s: string, c: char, n: nat)
    requires n < |s| && s[n] == c
    requires forall j :: 0 <= j < n ==> s[j] != c
    ensures FirstIndex(s, c) == n
  {
    if n > 0 {
      FirstIndexAt(s[1..], c, n - 1);
    }
  }

  lemma ParseFormatPoint(p: Point)
    requires PlainNumber(p.lng)
    ensures ParsePoint(FormatPoint(p)) == p
  {
    var t := FormatPoint(p);
    var n := |p.lng|;
    assert t[n] == ' ';
    FirstIndexAt(t, ' ', n);
    assert t[n + 1..] == p.lat && t[..n] == p.lng;
  }

  /** Reading the polygon back gives the closed ring, and each of its points gives back the
      input coordinate: the rendering swaps to longitude-first and loses nothing. */
  lemma WktRoundTrip(coords: seq<Point>)
    requires |coords| > 0
    requires forall k :: 0 <= k < |coords| ==> PlainNumber(coords[k].lat) && PlainNumber(coords[k].lng)
    ensures ParseWkt(CoordinatesToWkt(Some(coords))) == Some(CloseRing(FormatPoints(coords)))
    ensures forall k :: 0 <= k < |coords| ==> ParsePoint(CloseRing(FormatPoints(coords))[k]) == coords[k]
    ensures ParsePoint(CloseRing(FormatPoints(coords))[|CloseRing(FormatPoints(coords))| - 1]) == coords[0]
  {
    var ring := CloseRing(FormatPoints(coords));
    forall k | 0 <= k < |ring|
      ensures CommaFree(ring[k])
    {
      var p := if k < |coords| then coords[k] else coords[0];
      assert ring[k] == FormatPoint(p);
      assert CommaFree(p.lng) && CommaFree(p.lat);
      var t := FormatPoint(p);
      forall j | 0 <= j < |t| ensures t[j] != ',' {
        if j < |p.lng| { assert t[j] == p.lng[j]; }
        else if j > |p.lng| { assert t[j] == p.lat[j - |p.lng| - 1]; }
      }
    }
    SplitJoin(ring);
    var wkt := CoordinatesToWkt(Some(coords));
    assert wkt[|WktPrefix|..|wkt| - |WktSuffix|] == Join(ring);
    forall k | 0 <= k < |coords|
      ensures ParsePoint(ring[k]) == coords[k]
    {
      ParseFormatPoint(coords[k]);
    }
    ParseFormatPoint(coords[0]);
  }

  // ---------------------------------------------------------------------------
  // Mock search results

  /** `s.replace(/-/g, '')`. */
  function StripDashes(s: string): (r: string)
    ensures '-' !in r
    ensures |r| <= |s|
  {
    if |s| == 0 then "" else (if s[0] == '-' then "" else [s[0]]) + StripDashes(s[1..])
  }

  lemma {:induction false} StripDashesAppend(a: string, b: string)
    ensures StripDashes(a + b) == StripDashes(a) + StripDashes(b)
  {
    if |a| == 0 {
      assert a + b == b;
    } else {
      assert (a + b)[0] == a[0];
      assert (a + b)[1..] == a[1..] + b;
      StripDashesAppend(a[1..], b);
    }
  }

  lemma {:induction false} StripDashesNoop(s: string)
    requires '-' !in s
    ensures StripDashes(s) == s
  {
    if |s| > 0 {
      assert '-' !in s[1..] by {
        forall c | c in s[1..] ensures c in s { }
      }
      StripDashesNoop(s[1..]);
    }
  }

  /** An ISO date "YYYY-MM-DD" becomes "YYYYMMDD" in a product id. */
  lemma StripDashesIsoDate(year: string, month: string, day: string)
    requires '-' !in year && '-' !in month && '-' !in day
    ensures StripDashes(year + "-" + month + "-" + day) == year + month + day
  {
    StripDashesNoop(year);
    StripDashesNoop(month);
    StripDashesNoop(day);
    StripDashesAround(year, month);
    StripDashesAround(year + "-" + month, day);
  }

  /** Removing the dashes of `a + "-" + b` removes the middle one. */
  lemma StripDashesAround(a: string, b: string)
    ensures StripDashes(a + "-" + b) == StripDashes(a) + StripDashes(b)
  {
    var dash: string := "-";
    assert StripDashes(dash) == "";
    StripDashesAppend(a + dash, b);
    StripDashesAppend(a, dash);
  }

  /** The fields of one mock product that the model keeps. */
  datatype MockProduct = MockProduct(
    id: string, name: string, footprint: string,
    contentStart: string, contentEnd: string,
    cloudCoverPercentage: real, size: nat, contentType: string)

  /** The two mock products of `searchSatelliteData`'s fallback, one for each end of the range. */
  function MockResults(dataType: string, coordinates: Option<seq<Point>>, startDate: string, endDate: string)
    : (r: seq<MockProduct>)
    ensures |r| == 2
    ensures forall k :: 0 <= k < 2 ==>
              r[k].footprint == CoordinatesToWkt(coordinates) && r[k].contentType == dataType
    ensures r[0].name == "Sentinel-2A L2A product from " + startDate
    ensures r[1].name == "Sentinel-2B L2A product from " + endDate
    ensures |r[0].contentStart| > |startDate| && r[0].contentStart[..|startDate|] == startDate
    ensures |r[1].contentStart| > |endDate| && r[1].contentStart[..|endDate|] == endDate
    ensures r[0].id == "S2A_MSIL2A_" + StripDashes(startDate) + "T104031_N0509_R008_T31TDG_" + StripDashes(startDate) + "T150956"
    ensures r[1].id == "S2B_MSIL2A_" + StripDashes(endDate) + "T104619_N0509_R008_T31TDG_" + StripDashes(endDate) + "T141155"
  {
    var wkt := CoordinatesToWkt(coordinates);
    var s, e := StripDashes(startDate), StripDashes(endDate);
    var first := MockProduct(
      "S2A_MSIL2A_" + s + "T104031_N0509_R008_T31TDG_" + s + "T150956",
      "Sentinel-2A L2A product from " + startDate, wkt,
      startDate + "T10:40:31.024Z", startDate + "T10:40:41.024Z",
      5.2, 1258291200, dataType);
    var second := MockProduct(
      "S2B_MSIL2A_" + e + "T104619_N0509_R008_T31TDG_" + e + "T141155",
      "Sentinel-2B L2A product from " + endDate, wkt,
      endDate + "T10:46:19.024Z", endDate + "T10:46:29.024Z",
      12.8, 1363148800, dataType);
    [first, second]
  }

  /** The id of the first mock product carries the start date as eight digits, twice. */
  lemma MockIdEmbedsDate(dataType: string, coordinates: Option<seq<Point>>,
                         year: string, month: string, day: string, endDate: string)
    requires '-' !in year && '-' !in month && '-' !in day
    ensures var r := MockResults(dataType, coordinates, year + "-" + month + "-" + day, endDate);
            r[0].id == "S2A_MSIL2A_" + year + month + day + "T104031_N0509_R008_T31TDG_" + year + month + day + "T150956"
  {
    StripDashesIsoDate(year, month, day);
  }

  /** The id of the second mock product carries the end date as eight digits, twice. */
  lemma MockEndIdEmbedsDate(dataType: string, coordinates: Option<seq<Point>>,
                            startDate: string, year: string, month: string, day: string)
    requires '-' !in year && '-' !in month && '-' !in day
    ensures var r := MockResults(dataType, coordinates, startDate, year + "-" + month + "-" + day);
            r[1].id == "S2B_MSIL2A_" + year + month + day + "T104619_N0509_R008_T31TDG_" + year + month + day + "T141155"
  {
    StripDashesIsoDate(year, month, day);
  }
}
