/** The back end's Copernicus Data Space client: the OAuth client-credentials
    token cache (RFC 6749, sections 4.4 and 5.1), the bounding box handed to the
    STAC search in `[west, south, east, north]` order (RFC 7946, section 5), the
    collection and datetime-interval parameters (RFC 3339, section 5.6), and the
    shaping of the returned features. The module globals `access_token` and
    `token_expiry` are the fields of one `CopernicusClient`; the clock, the
    environment and the HTTP answers are parameters. */
module CopernicusSearch {
  import opened Wrappers

  // ---------------------------------------------------------------------------
  // Access token

  /** The safety margin before expiry, in milliseconds. */
  const ExpiryMarginMs: int := 60000

  /** Python truthiness of an optional string: present and non-empty. */
  predicate Truthy(s: Option<string>) { s.Some? && s.value != "" }

  /** The answer of the token endpoint: no answer at all (the request raised), or a status
      code and the two fields of the JSON body, each missing when absent or unreadable. */
  datatype TokenResponse =
    | NoResponse
    | TokenResponse(statusCode: int, accessToken: Option<string>, expiresIn: Option<int>)

  /** What one `get_access_token` call returns and leaves in the cache, and whether it asked the
      token endpoint. */
  datatype TokenStep = TokenStep(token: Option<string>, accessToken: Option<string>, tokenExpiry: int, requested: bool)

  /** `get_access_token` at time `now` from the cache (`accessToken`, `tokenExpiry`): a cached
      token valid for more than the margin is reused; without credentials nothing is asked;
      otherwise the endpoint is asked. A failed request, another status or a body without
      `access_token` keeps the cache; a body without `expires_in` raises after storing the
      token, so the token is kept with the old expiry and None is returned. */
  function TokenStepAt(accessToken: Option<string>, tokenExpiry: int, now: int,
                       clientId: Option<string>, clientSecret: Option<string>, response: TokenResponse): TokenStep
  {
    if Truthy(accessToken) && now < tokenExpiry - ExpiryMarginMs then TokenStep(accessToken, accessToken, tokenExpiry, false)
    else if !Truthy(clientId) || !Truthy(clientSecret) then TokenStep(None, accessToken, tokenExpiry, false)
    else match response
      case NoResponse => TokenStep(None, accessToken, tokenExpiry, true)
      case TokenResponse(statusCode, newToken, expiresIn) =>
        if statusCode != 200 || newToken.None? then TokenStep(None, accessToken, tokenExpiry, true)
        else if expiresIn.None? then TokenStep(None, newToken, tokenExpiry, true)
        else TokenStep(newToken, newToken, now + expiresIn.value * 1000, true)
  }

  /** A `POST` to the STAC search endpoint: its payload and its optional bearer token. */
  datatype SearchPayload = SearchPayload(
    collections: seq<string>, bbox: Bbox, datetime: string, cloudCoverMax: int, limit: int)

  datatype SearchRequest = SearchRequest(authorization: Option<string>, payload: SearchPayload)

  // ---------------------------------------------------------------------------
  // Bounding box

  /** `[west, south, east, north]`. */
  datatype Bbox = Bbox(west: real, south: real, east: real, north: real)

  /** The box used when the coordinates cannot be read: around Barcelona. */
  const DefaultBbox: Bbox := Bbox(2.1, 41.3, 2.3, 41.5)

  /** A `[lat, lng]` point. */
  datatype LatLng = LatLng(lat: real, lng: real)

  /** What `coordinates_to_bbox` sees once a string argument has been through `json.loads`:
      text that is not JSON, a JSON value that is not a list (or is empty), or a list of points. */
  datatype CoordsInput = InvalidJson | NotAList | PointList(points: seq<LatLng>)

  function MinOf(xs: seq<real>): (m: real)
    requires |xs| > 0
    ensures forall i :: 0 <= i < |xs| ==> m <= xs[i]
    ensures exists i :: 0 <= i < |xs| && m == xs[i]
  {
    if |xs| == 1 then xs[0]
    else
      var rest := MinOf(xs[1..]);
      assert forall i :: 1 <= i < |xs| ==> xs[i] == xs[1..][i - 1];
      if xs[0] <= rest then xs[0] else rest
  }

  function MaxOf(xs: seq<real>): (m: real)
    requires |xs| > 0
    ensures forall i :: 0 <= i < |xs| ==> m >= xs[i]
    ensures exists i :: 0 <= i < |xs| && m == xs[i]
  {
    if |xs| == 1 then xs[0]
    else
      var rest := MaxOf(xs[1..]);
      assert forall i :: 1 <= i < |xs| ==> xs[i] == xs[1..][i - 1];
      if xs[0] >= rest then xs[0] else rest
  }

  function Lats(pts: seq<LatLng>): (r: seq<real>)
    ensures |r| == |pts| && forall i :: 0 <= i < |pts| ==> r[i] == pts[i].lat
  {
    seq(|pts|, i requires 0 <= i < |pts| => pts[i].lat)
  }

  function Lngs(pts: seq<LatLng>): (r: seq<real>)
    ensures |r| == |pts| && forall i :: 0 <= i < |pts| ==> r[i] == pts[i].lng
  {
    seq(|pts|, i requires 0 <= i < |pts| => pts[i].lng)
  }

  predicate InBbox(b: Bbox, p: LatLng) {
    b.west <= p.lng <= b.east && b.south <= p.lat <= b.north
  }

  /** `coordinates_to_bbox`: the default box for unreadable input or fewer than three points;
      otherwise the smallest box holding every point. */
  function CoordinatesToBbox(coords: CoordsInput): (b: Bbox)
    ensures !coords.PointList? || |coords.points| < 3 ==> b == DefaultBbox
    ensures b.west <= b.east && b.south <= b.north
    ensures coords.PointList? && |coords.points| >= 3 ==>
              forall i :: 0 <= i < |coords.points| ==> InBbox(b, coords.points[i])
    ensures coords.PointList? && |coords.points| >= 3 ==>
              (exists i :: 0 <= i < |coords.points| && coords.points[i].lng == b.west)
              && (exists i :: 0 <= i < |coords.points| && coords.points[i].lat == b.south)
              && (exists i :: 0 <= i < |coords.points| && coords.points[i].lng == b.east)
              && (exists i :: 0 <= i < |coords.points| && coords.points[i].lat == b.north)
  {
    if !coords.PointList? || |coords.points| < 3 then DefaultBbox
    else
      var lats, lngs := Lats(coords.points), Lngs(coords.points);
      Bbox(MinOf(lngs), MinOf(lats), MaxOf(lngs), MaxOf(lats))
  }

  // ---------------------------------------------------------------------------
  // Search parameters

  const DefaultCollection: string := "sentinel-2-l2a"

  /** `collection_map.get(data_type, 'sentinel-2-l2a')`. */
  function CollectionFor(dataType: string): (c: string)
    ensures dataType == "S2MSI2A" ==> c == "sentinel-2-l2a"
    ensures dataType == "S1GRD" ==> c == "sentinel-1-grd"
    ensures dataType == "S3OLCI" ==> c == "sentinel-3-olci"
    ensures dataType !in {"S2MSI2A", "S1GRD", "S3OLCI"} ==> c == DefaultCollection
  {
    if dataType == "S1GRD" then "sentinel-1-grd"
    else if dataType == "S3OLCI" then "sentinel-3-olci"
    else DefaultCollection
  }

  const DayStart: string := "T00:00:00Z"
  const DayEnd: string := "T23:59:59Z"

  /** The closed interval from the first second of the start day to the last second of the
      end day, as `start/end`. */
  function DateRange(startDate: string, endDate: string): (r: string)
    ensures |r| == |startDate| + |DayStart| + 1 + |endDate| + |DayEnd|
    ensures r[..|startDate|] == startDate
    ensures r[|startDate|..|startDate| + |DayStart|] == DayStart
    ensures r[|startDate| + |DayStart|] == '/'
    ensures r[|startDate| + |DayStart| + 1..|r| - |DayEnd|] == endDate
    ensures r[|r| - |DayEnd|..] == DayEnd
  {
    (startDate + DayStart) + "/" + (endDate + DayEnd)
  }

  // ---------------------------------------------------------------------------
  // Features and results

  /** A STAC asset's fields (only `href` is read). */
  type Asset = map<string, string>

  datatype Properties = Properties(datetime: Option<string>, cloudCover: Option<real>)

  /** A STAC feature: its id, its assets and its properties when those keys are present, and its
      `bbox` and `geometry`, passed through unread (the geometry as its GeoJSON text). */
  datatype Feature = Feature(
    id: Option<string>, assets: Option<map<string, Asset>>, properties: Option<Properties>,
    bbox: Option<seq<real>>, geometry: Option<string>)

  /** A feature the result loop can read: `feature['id']` and `feature['properties']` exist. */
  predicate Readable(feature: Feature) {
    feature.id.Some? && feature.properties.Some?
  }

  datatype SearchResult = SearchResult(
    id: string, name: string, datetime: Option<string>, cloudCover: real,
    thumbnailUrl: Option<string>, assets: map<string, Asset>, properties: Properties,
    bbox: Option<seq<real>>, geometry: Option<string>)

  /** The asset kinds searched for a preview image, best first. */
  const ThumbnailKinds: seq<string> := ["thumbnail", "preview", "overview", "browse"]

  predicate HasHref(assets: map<string, Asset>, kind: string) {
    kind in assets && "href" in assets[kind]
  }

  /** The `href` of the first kind in `kinds` that has one. */
  function FirstThumbnail(assets: map<string, Asset>, kinds: seq<string>): (h: Option<string>)
    ensures h.None? <==> forall k :: 0 <= k < |kinds| ==> !HasHref(assets, kinds[k])
    ensures h.Some? ==> exists k :: 0 <= k < |kinds| && HasHref(assets, kinds[k])
                          && h.value == assets[kinds[k]]["href"]
                          && forall j :: 0 <= j < k ==> !HasHref(assets, kinds[j])
  {
    if |kinds| == 0 then None
    else if HasHref(assets, kinds[0]) then Some(assets[kinds[0]]["href"])
    else
      var rest := FirstThumbnail(assets, kinds[1..]);
      assert forall k :: 1 <= k < |kinds| ==> kinds[k] == kinds[1..][k - 1];
      if rest.Some? then
        var k' :| 0 <= k' < |kinds| - 1 && HasHref(assets, kinds[1..][k']) && rest.value == assets[kinds[1..][k']]["href"]
                  && forall j :: 0 <= j < k' ==> !HasHref(assets, kinds[1..][j]);
        assert forall j :: 0 <= j < k' + 1 ==> !HasHref(assets, kinds[j]) by {
          forall j | 0 <= j < k' + 1 ensures !HasHref(assets, kinds[j]) {
            if j > 0 { assert kinds[j] == kinds[1..][j - 1]; }
          }
        }
        rest
      else rest
  }

  /** The thumbnail loop of `search_satellite_data`, with its `break`. */
  method SelectThumbnail(feature: Feature) returns (thumbnailUrl: Option<string>)
    ensures feature.assets.None? ==> thumbnailUrl.None?
    ensures feature.assets.Some? ==> thumbnailUrl == FirstThumbnail(feature.assets.value, ThumbnailKinds)
  {
    thumbnailUrl := None;
    if feature.assets.Some? {
      var assets := feature.assets.value;
      var k := 0;
      while k < |ThumbnailKinds|
        invariant 0 <= k <= |ThumbnailKinds|
        invariant thumbnailUrl.None?
        invariant FirstThumbnail(assets, ThumbnailKinds) == FirstThumbnail(assets, ThumbnailKinds[k..])
      {
        var assetType := ThumbnailKinds[k];
        if assetType in assets && "href" in assets[assetType] {
          thumbnailUrl := Some(assets[assetType]["href"]);
          break;
        }
        assert ThumbnailKinds[k..][1..] == ThumbnailKinds[k + 1..];
        k := k + 1;
      }
    }
  }

  /** One result object: id doubling as name, cloud cover defaulting to 0, the chosen
      thumbnail, the assets (empty when the feature has none), the properties, and the
      feature's `bbox` and `geometry` as they are. */
  function ShapeFeature(feature: Feature): (r: SearchResult)
    requires Readable(feature)
    ensures r.id == feature.id.value && r.name == feature.id.value
    ensures r.cloudCover == feature.properties.value.cloudCover.GetOr(0.0)
    ensures r.datetime == feature.properties.value.datetime
    ensures r.thumbnailUrl.Some? ==> feature.assets.Some?
    ensures feature.assets.Some? ==> r.thumbnailUrl == FirstThumbnail(feature.assets.value, ThumbnailKinds)
    ensures r.assets == feature.assets.GetOr(map[]) && r.properties == feature.properties.value
    ensures r.bbox == feature.bbox && r.geometry == feature.geometry
  {
    var properties := feature.properties.value;
    SearchResult(
      feature.id.value, feature.id.value, properties.datetime, properties.cloudCover.GetOr(0.0),
      if feature.assets.Some? then FirstThumbnail(feature.assets.value, ThumbnailKinds) else None,
      feature.assets.GetOr(map[]), properties, feature.bbox, feature.geometry)
  }

  /** The result loop: one result per feature, in feature order. A feature without `id` or
      `properties` raises a `KeyError`, which the enclosing `except` turns into no results. */
  method ShapeResults(features: seq<Feature>) returns (results: seq<SearchResult>)
    ensures (forall i :: 0 <= i < |features| ==> Readable(features[i])) ==>
              |results| == |features|
              && forall i :: 0 <= i < |features| ==> results[i] == ShapeFeature(features[i])
    ensures (exists i :: 0 <= i < |features| && !Readable(features[i])) ==> results == []
  {
    results := [];
    var k := 0;
    while k < |features|
      invariant 0 <= k <= |features|
      invariant |results| == k
      invariant forall i :: 0 <= i < k ==> Readable(features[i])
      invariant forall i :: 0 <= i < k ==> results[i] == ShapeFeature(features[i])
    {
      var feature := features[k];
      var thumbnailUrl := SelectThumbnail(feature);
      if feature.id.None? || feature.properties.None? {
        return [];
      }
      var properties := feature.properties.value;
      var result := SearchResult(
        feature.id.value, feature.id.value, properties.datetime, properties.cloudCover.GetOr(0.0),
        thumbnailUrl, feature.assets.GetOr(map[]), properties, feature.bbox, feature.geometry);
      results := results + [result];
      k := k + 1;
    }
  }

  /** The answer of the STAC search endpoint. */
  datatype SearchResponse = SearchFailed | SearchResponse(statusCode: int, features: seq<Feature>)

  /** The search request `search_satellite_data` builds. */
  function BuildSearch(token: Option<string>, dataType: string, coordinates: CoordsInput,
                       startDate: string, endDate: string, cloudCoverMax: int, limit: int): (req: SearchRequest)
    ensures req.authorization.Some? <==> Truthy(token)
    ensures req.authorization.Some? ==> req.authorization.value == "Bearer " + token.value
    ensures req.payload.collections == [CollectionFor(dataType)]
    ensures req.payload.bbox == CoordinatesToBbox(coordinates)
    ensures req.payload.datetime == DateRange(startDate, endDate)
  {
    SearchRequest(
      if Truthy(token) then Some("Bearer " + token.value) else None,
      SearchPayload([CollectionFor(dataType)], CoordinatesToBbox(coordinates),
                    DateRange(startDate, endDate), cloudCoverMax, limit))
  }

  class CopernicusClient {
    /** `access_token`. */
    var accessToken: Option<string>
    /** `token_expiry`, in milliseconds. */
    var tokenExpiry: int
    /** Every request sent to the token endpoint, by the time it was sent. */
    var tokenRequests: seq<int>
    /** Every search request sent. */
    var searches: seq<SearchRequest>

    /** A held token that is still usable at `now`. */
    predicate CacheValid(now: int)
      reads this
    {
      Truthy(accessToken) && now < tokenExpiry - ExpiryMarginMs
    }

    constructor ()
      ensures accessToken.None? && tokenExpiry == 0 && tokenRequests == [] && searches == []
    {
      accessToken := None;
      tokenExpiry := 0;
      tokenRequests := [];
      searches := [];
    }

    /** `get_access_token` at time `now` (ms), with the environment's client id and secret and
        the token endpoint's answer. */
    method GetAccessToken(now: int, clientId: Option<string>, clientSecret: Option<string>,
                          response: TokenResponse)
      returns (token: Option<string>)
      modifies this`accessToken, this`tokenExpiry, this`tokenRequests
      ensures old(CacheValid(now)) ==>
                token == old(accessToken) && unchanged(this)
      ensures !old(CacheValid(now)) && !(Truthy(clientId) && Truthy(clientSecret)) ==>
                token.None? && unchanged(this)
      ensures !old(CacheValid(now)) && Truthy(clientId) && Truthy(clientSecret) ==>
                tokenRequests == old(tokenRequests) + [now]
      ensures tokenRequests == old(tokenRequests) || tokenRequests == old(tokenRequests) + [now]
      ensures response.NoResponse? || response.statusCode != 200 || response.accessToken.None? ==>
                accessToken == old(accessToken) && tokenExpiry == old(tokenExpiry)
                && (token.None? || old(CacheValid(now)))
      ensures tokenRequests != old(tokenRequests) && token.Some? ==>
                response.TokenResponse? && response.statusCode == 200 && response.expiresIn.Some?
                && token == response.accessToken && accessToken == token
                && tokenExpiry == now + response.expiresIn.value * 1000
      ensures tokenRequests != old(tokenRequests) && response.TokenResponse? && response.statusCode == 200
              && response.accessToken.Some? ==>
                accessToken == response.accessToken
                && (response.expiresIn.Some? <==> token.Some?)
                && (response.expiresIn.None? ==> tokenExpiry == old(tokenExpiry))
      ensures var step := TokenStepAt(old(accessToken), old(tokenExpiry), now, clientId, clientSecret, response);
              token == step.token && accessToken == step.accessToken && tokenExpiry == step.tokenExpiry
              && tokenRequests == old(tokenRequests) + (if step.requested then [now] else [])
    {
      if Truthy(accessToken) && now < tokenExpiry - ExpiryMarginMs {
        return accessToken;
      }
      if !Truthy(clientId) || !Truthy(clientSecret) {
        return None;
      }
      tokenRequests := tokenRequests + [now];
      match response
      case NoResponse =>
        token := None;
      case TokenResponse(statusCode, newToken, expiresIn) =>
        if statusCode != 200 {
          return None;
        }
        if newToken.None? {
          return None;
        }
        accessToken := newToken;
        if expiresIn.None? {
          return None;
        }
        tokenExpiry := now + expiresIn.value * 1000;
        token := accessToken;
    }

    /** `search_satellite_data`: fetch a token, send the search, and shape the features of a
        200 answer; any other answer gives no results. */
    method SearchSatelliteData(now: int, clientId: Option<string>, clientSecret: Option<string>,
                               tokenResponse: TokenResponse,
                               dataType: string, coordinates: CoordsInput, startDate: string, endDate: string,
                               cloudCoverMax: int, limit: int, response: SearchResponse)
      returns (results: seq<SearchResult>)
      modifies this
      ensures var step := TokenStepAt(old(accessToken), old(tokenExpiry), now, clientId, clientSecret, tokenResponse);
              accessToken == step.accessToken && tokenExpiry == step.tokenExpiry
              && tokenRequests == old(tokenRequests) + (if step.requested then [now] else [])
              && searches == old(searches)
                             + [BuildSearch(step.token, dataType, coordinates, startDate, endDate, cloudCoverMax, limit)]
      ensures response.SearchFailed? || response.statusCode != 200 ==> results == []
      ensures response.SearchResponse? && response.statusCode == 200
              && (exists i :: 0 <= i < |response.features| && !Readable(response.features[i])) ==>
                results == []
      ensures response.SearchResponse? && response.statusCode == 200
              && (forall i :: 0 <= i < |response.features| ==> Readable(response.features[i])) ==>
                |results| == |response.features|
                && forall i :: 0 <= i < |results| ==> results[i] == ShapeFeature(response.features[i])
    {
      var token := GetAccessToken(now, clientId, clientSecret, tokenResponse);
      var request := BuildSearch(token, dataType, coordinates, startDate, endDate, cloudCoverMax, limit);
      searches := searches + [request];
      if response.SearchFailed? || response.statusCode != 200 {
        return [];
      }
      results := ShapeResults(response.features);
    }
  }
}
