/** Price calculation of the web app: the polygon's bounding-box area, the
    data-type and resolution table, the area and date-range factors, the AI
    surcharge and the final rounding. Numbers are reals; a date is its
    millisecond timestamp, or None when the string does not parse. The cosine
    of the mean latitude is a parameter. */
module Pricing {
  import opened Wrappers

  /** A Leaflet `LatLng`. */
  datatype LatLng = LatLng(lat: real, lng: real)

  /** The running extremes of the bounding-box loop. */
  datatype Box = Box(minLat: real, maxLat: real, minLng: real, maxLng: real)

  const Sentinel2: string := "Sentinel-2 Level 2A"
  const Sentinel1: string := "Sentinel-1 SAR"
  const Sentinel3: string := "Sentinel-3 OLCI"

  const AiAnalysisMultiplier: real := 1.25
  const NetworkFee: real := 0.1
  /** One day in milliseconds. */
  const DayMs: nat := 1000 * 60 * 60 * 24

  // ---------------------------------------------------------------------------
  // Area

  /** The loop's starting values: the extremes of the valid coordinate range, inverted. */
  const InitialBox: Box := Box(90.0, -90.0, 180.0, -180.0)

  function Min(a: real, b: real): real { if a <= b then a else b }
  function Max(a: real, b: real): real { if a >= b then a else b }

  /** One iteration of the loop: widen the box to take in `p`. */
  function Widen(b: Box, p: LatLng): Box {
    Box(Min(b.minLat, p.lat), Max(b.maxLat, p.lat), Min(b.minLng, p.lng), Max(b.maxLng, p.lng))
  }

  /** The box after visiting `pts` in order. */
  function BoxOf(pts: seq<LatLng>): Box {
    if |pts| == 0 then InitialBox else Widen(BoxOf(pts[..|pts| - 1]), pts[|pts| - 1])
  }

  predicate Inside(b: Box, p: LatLng) {
    b.minLat <= p.lat <= b.maxLat && b.minLng <= p.lng <= b.maxLng
  }

  /** Every vertex lies inside the box, and the box never exceeds the starting extremes. */
  lemma {:induction false} BoxContains(pts: seq<LatLng>)
    ensures forall i :: 0 <= i < |pts| ==> Inside(BoxOf(pts), pts[i])
    ensures BoxOf(pts).minLat <= 90.0 && BoxOf(pts).maxLat >= -90.0
    ensures BoxOf(pts).minLng <= 180.0 && BoxOf(pts).maxLng >= -180.0
  {
    if |pts| > 0 {
      var front := pts[..|pts| - 1];
      BoxContains(front);
      forall i | 0 <= i < |pts|
        ensures Inside(BoxOf(pts), pts[i])
      {
        if i < |pts| - 1 {
          assert pts[i] == front[i];
        }
      }
    }
  }

  /** Each edge of the box is a vertex's coordinate or the starting value: the box is the
      tightest one containing the vertices and the starting extremes. */
  lemma {:induction false} BoxAttained(pts: seq<LatLng>)
    ensures BoxOf(pts).minLat == 90.0 || exists i :: 0 <= i < |pts| && pts[i].lat == BoxOf(pts).minLat
    ensures BoxOf(pts).maxLat == -90.0 || exists i :: 0 <= i < |pts| && pts[i].lat == BoxOf(pts).maxLat
    ensures BoxOf(pts).minLng == 180.0 || exists i :: 0 <= i < |pts| && pts[i].lng == BoxOf(pts).minLng
    ensures BoxOf(pts).maxLng == -180.0 || exists i :: 0 <= i < |pts| && pts[i].lng == BoxOf(pts).maxLng
  {
    if |pts| > 0 {
      var n := |pts| - 1;
      var front := pts[..n];
      BoxAttained(front);
      forall i | 0 <= i < n
        ensures pts[i] == front[i]
      {
      }
    }
  }

  /** The bounding-box loop of `calculateAreaInSqKm`. */
  method BoundingBox(latlngs: seq<LatLng>) returns (box: Box)
    ensures box == BoxOf(latlngs)
    ensures forall i :: 0 <= i < |latlngs| ==> Inside(box, latlngs[i])
  {
    var minLat, maxLat, minLng, maxLng := 90.0, -90.0, 180.0, -180.0;
    var k := 0;
    while k < |latlngs|
      invariant 0 <= k <= |latlngs|
      invariant Box(minLat, maxLat, minLng, maxLng) == BoxOf(latlngs[..k])
    {
      var point := latlngs[k];
      assert latlngs[..k + 1][..k] == latlngs[..k];
      minLat := Min(minLat, point.lat);
      maxLat := Max(maxLat, point.lat);
      minLng := Min(minLng, point.lng);
      maxLng := Max(maxLng, point.lng);
      k := k + 1;
    }
    assert latlngs[..k] == latlngs;
    box := Box(minLat, maxLat, minLng, maxLng);
    BoxContains(latlngs);
  }

  /** The area of the box in km^2 (111 km per degree, longitude scaled by the cosine of the
      mean latitude, `cosDeg` taking degrees), times 0.8, and never below 1. A missing ring
      or one with fewer than 3 vertices counts as 1 km^2. */
  function AreaOf(ring: Option<seq<LatLng>>, cosDeg: real -> real): (area: real)
    ensures area >= 1.0
    ensures ring.None? || |ring.value| < 3 ==> area == 1.0
  {
    if ring.None? || |ring.value| < 3 then 1.0
    else
      var b := BoxOf(ring.value);
      var heightKm := (b.maxLat - b.minLat) * 111.0;
      var widthKm := (b.maxLng - b.minLng) * 111.0 * cosDeg((b.minLat + b.maxLat) / 2.0);
      Max(1.0, heightKm * widthKm * 0.8)
  }

  /** `calculateAreaInSqKm`. */
  method CalculateAreaInSqKm(ring: Option<seq<LatLng>>, cosDeg: real -> real) returns (area: real)
    ensures area == AreaOf(ring, cosDeg)
    ensures area >= 1.0
  {
    if ring.None? || |ring.value| < 3 {
      return 1.0;
    }
    var b := BoundingBox(ring.value);
    var avgLat := (b.minLat + b.maxLat) / 2.0;
    var heightKm := (b.maxLat - b.minLat) * 111.0;
    var widthKm := (b.maxLng - b.minLng) * 111.0 * cosDeg(avgLat);
    area := Max(1.0, heightKm * widthKm * 0.8);
  }

  // ---------------------------------------------------------------------------
  // Factors

  /** `DATA_TYPE_PRICES[dataType] || 10`. */
  function BasePriceFor(dataType: string): (p: real)
    ensures dataType == Sentinel2 ==> p == 10.0
    ensures dataType == Sentinel1 ==> p == 15.0
    ensures dataType == Sentinel3 ==> p == 5.0
    ensures dataType !in {Sentinel2, Sentinel1, Sentinel3} ==> p == 10.0
  {
    if dataType == Sentinel1 then 15.0 else if dataType == Sentinel3 then 5.0 else 10.0
  }

  /** The resolution multiplier: 10 m, 5-20 m and 300 m for the three known types, else 1. */
  function ResolutionMultiplier(dataType: string): (m: real)
    ensures dataType == Sentinel2 ==> m == 1.5
    ensures dataType == Sentinel1 ==> m == 1.3
    ensures dataType == Sentinel3 ==> m == 0.8
    ensures dataType !in {Sentinel2, Sentinel1, Sentinel3} ==> m == 1.0
  {
    if dataType == Sentinel2 then 1.5
    else if dataType == Sentinel1 then 1.3
    else if dataType == Sentinel3 then 0.8
    else 1.0
  }

  /** `max(0.5, area / 100)`. */
  function AreaFactor(area: real): (f: real)
    ensures f >= 0.5 && f >= area / 100.0
    ensures f == 0.5 || f == area / 100.0
  {
    Max(0.5, area / 100.0)
  }

  /** The AI surcharge, applied exactly when AI analysis is enabled. */
  function AiMultiplier(aiAnalysisEnabled: bool): (m: real)
    ensures m == (if aiAnalysisEnabled then AiAnalysisMultiplier else 1.0)
  {
    if aiAnalysisEnabled then AiAnalysisMultiplier else 1.0
  }

  function AbsInt(x: int): nat { if x < 0 then -x else x }

  /** `Math.ceil(|end - start| / day) + 1`: the number of calendar days the range touches. */
  function DiffDays(start: int, end: int): (d: nat)
    ensures d >= 1
    ensures (d - 2) * DayMs < AbsInt(end - start) <= (d - 1) * DayMs
  {
    (AbsInt(end - start) + DayMs - 1) / DayMs + 1
  }

  /** Swapping the two dates does not change the day count. */
  lemma DiffDaysSymmetric(start: int, end: int)
    ensures DiffDays(start, end) == DiffDays(end, start)
  {
    assert AbsInt(end - start) == AbsInt(start - end);
  }

  /** The range factor of a valid pair of dates: `diffDays / 7` clamped to [0.5, 2.0]. */
  function DateRangeFactorOf(start: int, end: int): (f: real)
    ensures 0.5 <= f <= 2.0
    ensures DiffDays(start, end) as real < 3.5 ==> f == 0.5
    ensures 3.5 <= DiffDays(start, end) as real <= 14.0 ==> f == DiffDays(start, end) as real / 7.0
    ensures DiffDays(start, end) as real > 14.0 ==> f == 2.0
  {
    Max(0.5, Min(2.0, DiffDays(start, end) as real / 7.0))
  }

  /** `calculateDateRangeFactor` as written. An unparsable date makes `new Date` an Invalid
      Date, not an exception: NaN (None here) flows through `abs`, `ceil`, `min` and `max`,
      and the `catch` that returns 1.0 is never reached. */
  function DateRangeFactorAsWritten(start: Option<int>, end: Option<int>): (f: Option<real>)
    ensures f.Some? <==> start.Some? && end.Some?
    ensures f.Some? ==> f.value == DateRangeFactorOf(start.value, end.value)
  {
    if start.None? || end.None? then None else Some(DateRangeFactorOf(start.value, end.value))
  }

  /** `calculateDateRangeFactor` as its error handler intends: 1.0 when a date is invalid. */
  function DateRangeFactor(start: Option<int>, end: Option<int>): (f: real)
    ensures 0.5 <= f <= 2.0
    ensures start.None? || end.None? ==> f == 1.0
    ensures DateRangeFactorAsWritten(start, end).Some? ==> f == DateRangeFactorAsWritten(start, end).value
  {
    if start.None? || end.None? then 1.0 else DateRangeFactorOf(start.value, end.value)
  }

  /** The discrepancy: an unparsable start date yields no factor (NaN) where 1.0 is intended. */
  lemma InvalidDateGivesNaN(end: Option<int>)
    ensures DateRangeFactorAsWritten(None, end).None?
    ensures DateRangeFactor(None, end) == 1.0
  {
  }

  // ---------------------------------------------------------------------------
  // Price

  /** `Math.round` on a real: the nearest integer, halves rounded up. */
  function Round(x: real): (n: int)
    ensures x - 0.5 < n as real <= x + 0.5
  {
    (x + 0.5).Floor
  }

  lemma RoundMonotone(x: real, y: real)
    requires x <= y
    ensures Round(x) <= Round(y)
  {
  }

  /** The product of the factors before the fee is added. */
  function Subtotal(dataType: string, area: real, dateFactor: real, aiAnalysisEnabled: bool): real {
    BasePriceFor(dataType) * ResolutionMultiplier(dataType) * AreaFactor(area) * dateFactor
      * AiMultiplier(aiAnalysisEnabled)
  }

  /** The fee is added, the sum is scaled down by 50000 and rounded to cents. */
  function FinalPrice(subtotal: real): real {
    Round((subtotal + NetworkFee) / 50000.0 * 100.0) as real / 100.0
  }

  /** `calculateBasePrice`, with a ring, AI flag and the two dates as timestamps. The result is
      a non-negative whole number of hundredths. */
  function CalculateBasePrice(dataType: string, ring: Option<seq<LatLng>>, aiAnalysisEnabled: bool,
                              start: Option<int>, end: Option<int>, cosDeg: real -> real): (price: real)
    ensures price >= 0.0
    ensures (price * 100.0).Floor as real == price * 100.0
  {
    var subtotal := Subtotal(dataType, AreaOf(ring, cosDeg), DateRangeFactor(start, end), aiAnalysisEnabled);
    SubtotalPositive(dataType, AreaOf(ring, cosDeg), DateRangeFactor(start, end), aiAnalysisEnabled);
    FinalPrice(subtotal)
  }

  /** `calculateBasePrice` as written: the date factor is NaN (None here) when a date does not
      parse, and NaN makes the whole price NaN. Where both dates parse it is the price above. */
  function CalculateBasePriceAsWritten(dataType: string, ring: Option<seq<LatLng>>, aiAnalysisEnabled: bool,
                                       start: Option<int>, end: Option<int>, cosDeg: real -> real)
    : (price: Option<real>)
    ensures price.None? <==> start.None? || end.None?
    ensures price.Some? ==> price.value == CalculateBasePrice(dataType, ring, aiAnalysisEnabled, start, end, cosDeg)
  {
    match DateRangeFactorAsWritten(start, end)
    case None => None
    case Some(dateFactor) => Some(FinalPrice(Subtotal(dataType, AreaOf(ring, cosDeg), dateFactor, aiAnalysisEnabled)))
  }

  /** Every factor is positive, so the subtotal is. */
  lemma SubtotalPositive(dataType: string, area: real, dateFactor: real, aiAnalysisEnabled: bool)
    requires dateFactor >= 0.5
    ensures Subtotal(dataType, area, dateFactor, aiAnalysisEnabled) > 0.0
  {
    var a := BasePriceFor(dataType) * ResolutionMultiplier(dataType);
    assert a >= 4.0;
    var b := a * AreaFactor(area);
    assert b >= a * 0.5;
    var c := b * dateFactor;
    assert c >= b * 0.5;
    assert c * AiMultiplier(aiAnalysisEnabled) >= c;
  }

  /** A larger subtotal never gives a smaller price. */
  lemma FinalPriceMonotone(s1: real, s2: real)
    requires s1 <= s2
    ensures FinalPrice(s1) <= FinalPrice(s2)
  {
    var x1, x2 := (s1 + NetworkFee) / 50000.0 * 100.0, (s2 + NetworkFee) / 50000.0 * 100.0;
    assert x1 <= x2;
    RoundMonotone(x1, x2);
  }

  /** With every other input fixed, enabling AI analysis never lowers the price. */
  lemma AiNeverLowersPrice(dataType: string, ring: Option<seq<LatLng>>, start: Option<int>, end: Option<int>,
                           cosDeg: real -> real)
    ensures CalculateBasePrice(dataType, ring, false, start, end, cosDeg)
            <= CalculateBasePrice(dataType, ring, true, start, end, cosDeg)
  {
    var area, dateFactor := AreaOf(ring, cosDeg), DateRangeFactor(start, end);
    SubtotalPositive(dataType, area, dateFactor, false);
    var plain := Subtotal(dataType, area, dateFactor, false);
    var withAi := Subtotal(dataType, area, dateFactor, true);
    assert withAi == plain * 1.25;
    assert plain <= withAi;
    FinalPriceMonotone(plain, withAi);
    assert CalculateBasePrice(dataType, ring, false, start, end, cosDeg) == FinalPrice(plain);
    assert CalculateBasePrice(dataType, ring, true, start, end, cosDeg) == FinalPrice(withAi);
  }

  /** A larger area never lowers the price. */
  lemma LargerAreaNeverLowersPrice(dataType: string, area1: real, area2: real, dateFactor: real,
                                   aiAnalysisEnabled: bool)
    requires area1 <= area2 && dateFactor >= 0.5
    ensures FinalPrice(Subtotal(dataType, area1, dateFactor, aiAnalysisEnabled))
            <= FinalPrice(Subtotal(dataType, area2, dateFactor, aiAnalysisEnabled))
  {
    var k := BasePriceFor(dataType) * ResolutionMultiplier(dataType);
    var f1, f2 := AreaFactor(area1), AreaFactor(area2);
    assert f1 <= f2;
    var m := dateFactor * AiMultiplier(aiAnalysisEnabled);
    assert k > 0.0 && m > 0.0;
    assert k * f1 <= k * f2;
    assert k * f1 * m <= k * f2 * m;
    assert Subtotal(dataType, area1, dateFactor, aiAnalysisEnabled) == k * f1 * m;
    assert Subtotal(dataType, area2, dateFactor, aiAnalysisEnabled) == k * f2 * m;
    FinalPriceMonotone(k * f1 * m, k * f2 * m);
  }
}
