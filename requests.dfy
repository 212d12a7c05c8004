/** Validation of the HTTP API's request bodies: bounding boxes and their GeoJSON
    polygon, the geometry type check, the field bounds of analysis and preview
    requests and the exactly-one-area-of-interest rule. A rejected request
    reports which fields failed; the wording of the validation library's
    messages is not modelled, the messages the system writes itself are. */
module Requests {
  import opened Common

  // ---------------------------------------------------------------------------
  // Enumerations
  // ---------------------------------------------------------------------------

  datatype Period = P1990s | P2000s | P2010s | Present

  function PeriodValue(p: Period): string {
    match p
    case P1990s => "1990s"
    case P2000s => "2000s"
    case P2010s => "2010s"
    case Present => "present"
  }

  /** The enumeration member with the given value, if any. */
  function ParsePeriod(s: string): (r: Option<Period>)
    ensures r.Some? <==> s == "1990s" || s == "2000s" || s == "2010s" || s == "present"
    ensures r.Some? ==> PeriodValue(r.value) == s
  {
    if s == "1990s" then Some(P1990s)
    else if s == "2000s" then Some(P2000s)
    else if s == "2010s" then Some(P2010s)
    else if s == "present" then Some(Present)
    else None
  }

  /** Every member is recovered from its value. */
  lemma {:induction false} PeriodRoundTrip(p: Period)
    ensures ParsePeriod(PeriodValue(p)) == Some(p)
  {
    match p
    case P1990s =>
    case P2000s => assert "2000s"[2] != "1990s"[2];
    case P2010s => assert "2010s"[2] != "1990s"[2] && "2010s"[2] != "2000s"[2];
    case Present => assert "present"[0] != "1990s"[0] && "present"[0] != "2000s"[0] && "present"[0] != "2010s"[0];
  }

  datatype IndexType = Ndvi | Nbr | Ndwi | Evi | Ndmi

  function IndexValue(i: IndexType): string {
    match i
    case Ndvi => "ndvi"
    case Nbr => "nbr"
    case Ndwi => "ndwi"
    case Evi => "evi"
    case Ndmi => "ndmi"
  }

  function ParseIndex(s: string): (r: Option<IndexType>)
    ensures r.Some? <==> s == "ndvi" || s == "nbr" || s == "ndwi" || s == "evi" || s == "ndmi"
    ensures r.Some? ==> IndexValue(r.value) == s
  {
    if s == "ndvi" then Some(Ndvi)
    else if s == "nbr" then Some(Nbr)
    else if s == "ndwi" then Some(Ndwi)
    else if s == "evi" then Some(Evi)
    else if s == "ndmi" then Some(Ndmi)
    else None
  }

  lemma {:induction false} IndexRoundTrip(i: IndexType)
    ensures ParseIndex(IndexValue(i)) == Some(i)
  {
    match i
    case Ndvi =>
    case Nbr => assert "nbr"[1] != "ndvi"[1];
    case Ndwi => assert "ndwi"[2] != "ndvi"[2];
    case Evi => assert "evi"[0] != "ndvi"[0] && "evi"[0] != "nbr"[0] && "evi"[0] != "ndwi"[0];
    case Ndmi => assert "ndmi"[2] != "ndvi"[2] && "ndmi"[2] != "ndwi"[2];
  }

  /** Every element parses: the list of members, in order. */
  function ParsePeriods(s: seq<string>): (r: Option<seq<Period>>)
    ensures r.Some? <==> forall k :: 0 <= k < |s| ==> ParsePeriod(s[k]).Some?
    ensures r.Some? ==> |r.value| == |s| && forall k :: 0 <= k < |s| ==> Some(r.value[k]) == ParsePeriod(s[k])
  {
    if forall k :: 0 <= k < |s| ==> ParsePeriod(s[k]).Some? then
      Some(seq(|s|, k requires 0 <= k < |s| => ParsePeriod(s[k]).value))
    else None
  }

  function ParseIndices(s: seq<string>): (r: Option<seq<IndexType>>)
    ensures r.Some? <==> forall k :: 0 <= k < |s| ==> ParseIndex(s[k]).Some?
    ensures r.Some? ==> |r.value| == |s| && forall k :: 0 <= k < |s| ==> Some(r.value[k]) == ParseIndex(s[k])
  {
    if forall k :: 0 <= k < |s| ==> ParseIndex(s[k]).Some? then
      Some(seq(|s|, k requires 0 <= k < |s| => ParseIndex(s[k]).value))
    else None
  }

  // ---------------------------------------------------------------------------
  // BoundingBox
  // ---------------------------------------------------------------------------

  datatype BoundingBox = BoundingBox(minLon: real, minLat: real, maxLon: real, maxLat: real)

  predicate LonInRange(x: real) { -180.0 <= x <= 180.0 }
  predicate LatInRange(x: real) { -90.0 <= x <= 90.0 }

  /** The fields of a bounding box that fail validation, in declaration order. Each coordinate is
      range-checked; the order of a maximum is checked only once it is in range and its minimum
      was accepted, since only accepted fields are visible to the order validators. */
  function BoxViolations(b: BoundingBox): seq<string> {
    (if LonInRange(b.minLon) then [] else ["min_lon"])
    + (if LatInRange(b.minLat) then [] else ["min_lat"])
    + (if !LonInRange(b.maxLon) || (LonInRange(b.minLon) && b.maxLon <= b.minLon) then ["max_lon"] else [])
    + (if !LatInRange(b.maxLat) || (LatInRange(b.minLat) && b.maxLat <= b.minLat) then ["max_lat"] else [])
  }

  predicate ValidBox(b: BoundingBox) {
    BoxViolations(b) == []
  }

  /** A box is accepted exactly when all four coordinates are in range and each maximum is strictly
      greater than its minimum. */
  lemma ValidBoxIff(b: BoundingBox)
    ensures ValidBox(b) <==> LonInRange(b.minLon) && LonInRange(b.maxLon) && LatInRange(b.minLat) && LatInRange(b.maxLat)
                             && b.maxLon > b.minLon && b.maxLat > b.minLat
  {
  }

  /** An out-of-range minimum hides the order error of its maximum. */
  lemma OrderCheckNeedsValidMinimum()
    ensures BoxViolations(BoundingBox(200.0, 0.0, 10.0, 10.0)) == ["min_lon"]
  {
  }

  datatype Position = Position(lon: real, lat: real)

  /** A GeoJSON Polygon: its type member and its linear rings, exterior ring first. */
  datatype Polygon = Polygon(kind: string, rings: seq<seq<Position>>)

  /** `to_geojson`: one ring through the four corners, starting and ending at the south-west corner. */
  function ToGeoJson(b: BoundingBox): (g: Polygon)
    ensures g.kind == "Polygon" && |g.rings| == 1 && |g.rings[0]| == 5
    ensures LinearRing(g.rings[0])
    ensures forall k :: 0 <= k < 5 ==> g.rings[0][k].lon in {b.minLon, b.maxLon} && g.rings[0][k].lat in {b.minLat, b.maxLat}
  {
    Polygon("Polygon", [[
      Position(b.minLon, b.minLat),
      Position(b.maxLon, b.minLat),
      Position(b.maxLon, b.maxLat),
      Position(b.minLon, b.maxLat),
      Position(b.minLon, b.minLat)
    ]])
  }

  /** A linear ring in the sense of section 3.1.6 of RFC 7946: four or more positions, the last equal to the first. */
  predicate LinearRing(ring: seq<Position>) {
    |ring| >= 4 && ring[0] == ring[|ring| - 1]
  }

  /** Twice the signed area enclosed by a ring (the shoelace sum); positive for a counterclockwise ring. */
  function ShoelaceSum(ring: seq<Position>): real
    decreases |ring|
  {
    if |ring| < 2 then 0.0
    else ring[0].lon * ring[1].lat - ring[1].lon * ring[0].lat + ShoelaceSum(ring[1..])
  }

  /** The ring of an accepted box encloses twice the box's area with positive sign: it is counterclockwise,
      as section 3.1.6 of RFC 7946 requires of exterior rings, and its corners are four distinct positions. */
  lemma {:induction false} RingCounterclockwise(b: BoundingBox)
    requires ValidBox(b)
    ensures ShoelaceSum(ToGeoJson(b).rings[0]) == 2.0 * (b.maxLon - b.minLon) * (b.maxLat - b.minLat)
    ensures ShoelaceSum(ToGeoJson(b).rings[0]) > 0.0
    ensures forall i, j :: 0 <= i < j < 4 ==> ToGeoJson(b).rings[0][i] != ToGeoJson(b).rings[0][j]
  {
    ValidBoxIff(b);
    var r := ToGeoJson(b).rings[0];
    ShoelaceFive(r);
    BoxShoelace(b.minLon, b.minLat, b.maxLon, b.maxLat);
    PositiveProduct(b.maxLon - b.minLon, b.maxLat - b.minLat);
  }

  /** The shoelace sum of a five-position ring, written out. */
  lemma ShoelaceFive(r: seq<Position>)
    requires |r| == 5
    ensures ShoelaceSum(r) == (r[0].lon * r[1].lat - r[1].lon * r[0].lat) + (r[1].lon * r[2].lat - r[2].lon * r[1].lat)
                            + (r[2].lon * r[3].lat - r[3].lon * r[2].lat) + (r[3].lon * r[4].lat - r[4].lon * r[3].lat)
  {
    assert ShoelaceSum(r[4..]) == 0.0;
    assert ShoelaceSum(r[3..]) == r[3].lon * r[4].lat - r[4].lon * r[3].lat by { assert r[3..][1..] == r[4..]; }
    assert ShoelaceSum(r[2..]) == r[2].lon * r[3].lat - r[3].lon * r[2].lat + ShoelaceSum(r[3..]) by { assert r[2..][1..] == r[3..]; }
    assert ShoelaceSum(r[1..]) == r[1].lon * r[2].lat - r[2].lon * r[1].lat + ShoelaceSum(r[2..]) by { assert r[1..][1..] == r[2..]; }
  }

  /** The four corner terms of a box ring add up to twice its area. */
  lemma BoxShoelace(x0: real, y0: real, x1: real, y1: real)
    ensures (x0 * y0 - x1 * y0) + (x1 * y1 - x1 * y0) + (x1 * y1 - x0 * y1) + (x0 * y0 - x0 * y1)
            == 2.0 * (x1 - x0) * (y1 - y0)
  {
  }

  lemma PositiveProduct(w: real, h: real)
    requires w > 0.0 && h > 0.0
    ensures 2.0 * w * h > 0.0
  {
  }

  // ---------------------------------------------------------------------------
  // GeoJSONGeometry
  // ---------------------------------------------------------------------------

  /** A client-supplied geometry; its coordinates array is opaque. */
  datatype GeoJsonGeometry = GeoJsonGeometry(kind: string, coordinates: nat)

  /** `validate_type` */
  predicate ValidGeometryType(t: string) {
    t == "Polygon" || t == "MultiPolygon"
  }

  // ---------------------------------------------------------------------------
  // AnalysisRequest and PreviewRequest
  // ---------------------------------------------------------------------------

  const MissingAoi: string := "Either bbox or aoi_geojson must be provided"
  const BothAois: string := "Provide either bbox or aoi_geojson, not both"

  /** Why a request body is refused: fields failing validation, or the area-of-interest rule
      checked after all fields were accepted. */
  datatype Rejection = FieldErrors(fields: seq<string>) | PostInitError(message: string)

  datatype Validation<T> = Accepted(value: T) | Rejected(reason: Rejection)

  /** The body of an analysis request as received. */
  datatype RawAnalysisRequest = RawAnalysisRequest(
    siteName: string, bbox: Option<BoundingBox>, aoiGeojson: Option<GeoJsonGeometry>,
    periods: seq<string>, indices: seq<string>, referencePeriod: string,
    bufferDistance: real, cloudThreshold: real, exportToDrive: bool, driveFolder: Option<string>)

  /** A validated analysis request. */
  datatype AnalysisRequest = AnalysisRequest(
    siteName: string, bbox: Option<BoundingBox>, aoiGeojson: Option<GeoJsonGeometry>,
    periods: seq<Period>, indices: seq<IndexType>, referencePeriod: Period,
    bufferDistance: real, cloudThreshold: real, exportToDrive: bool, driveFolder: Option<string>)

  /** The request the defaults give, with the area of interest supplied. */
  function DefaultAnalysisRequest(bbox: Option<BoundingBox>, aoiGeojson: Option<GeoJsonGeometry>): RawAnalysisRequest {
    RawAnalysisRequest("Analysis Site", bbox, aoiGeojson, ["1990s", "present"], ["ndvi"], "1990s",
                       500.0, 20.0, false, Some("VegChangeAnalysis"))
  }

  predicate BoxFieldOk(bbox: Option<BoundingBox>) {
    bbox.None? || ValidBox(bbox.value)
  }

  predicate GeometryFieldOk(g: Option<GeoJsonGeometry>) {
    g.None? || ValidGeometryType(g.value.kind)
  }

  /** The fields of an analysis request that fail validation, in declaration order. */
  function AnalysisViolations(r: RawAnalysisRequest): seq<string> {
    (if 1 <= |r.siteName| <= 100 then [] else ["site_name"])
    + (if BoxFieldOk(r.bbox) then [] else ["bbox"])
    + (if GeometryFieldOk(r.aoiGeojson) then [] else ["aoi_geojson"])
    + (if |r.periods| >= 2 && ParsePeriods(r.periods).Some? then [] else ["periods"])
    + (if |r.indices| >= 1 && ParseIndices(r.indices).Some? then [] else ["indices"])
    + (if ParsePeriod(r.referencePeriod).Some? then [] else ["reference_period"])
    + (if 0.0 <= r.bufferDistance <= 10000.0 then [] else ["buffer_distance"])
    + (if 0.0 <= r.cloudThreshold <= 100.0 then [] else ["cloud_threshold"])
  }

  /** `model_post_init`: exactly one of the two areas of interest. */
  function AoiRule(bbox: Option<BoundingBox>, aoiGeojson: Option<GeoJsonGeometry>): (r: Option<string>)
    ensures r.None? <==> bbox.Some? != aoiGeojson.Some?
  {
    if bbox.None? && aoiGeojson.None? then Some(MissingAoi)
    else if bbox.Some? && aoiGeojson.Some? then Some(BothAois)
    else None
  }

  /** Building an `AnalysisRequest`: field validation, then the area-of-interest rule. */
  function ValidateAnalysisRequest(r: RawAnalysisRequest): (v: Validation<AnalysisRequest>)
    ensures v.Accepted? ==> v.value.siteName == r.siteName && v.value.bbox == r.bbox && v.value.aoiGeojson == r.aoiGeojson
    ensures v.Accepted? ==> Some(v.value.periods) == ParsePeriods(r.periods) && Some(v.value.indices) == ParseIndices(r.indices)
    ensures v.Accepted? ==> Some(v.value.referencePeriod) == ParsePeriod(r.referencePeriod)
    ensures v.Accepted? ==> v.value.bufferDistance == r.bufferDistance && v.value.cloudThreshold == r.cloudThreshold
                            && v.value.exportToDrive == r.exportToDrive && v.value.driveFolder == r.driveFolder
    ensures v.Rejected? && v.reason.FieldErrors? ==> v.reason.fields == AnalysisViolations(r) != []
  {
    var bad := AnalysisViolations(r);
    if bad != [] then Rejected(FieldErrors(bad))
    else match AoiRule(r.bbox, r.aoiGeojson)
      case Some(message) => Rejected(PostInitError(message))
      case None =>
        Accepted(AnalysisRequest(r.siteName, r.bbox, r.aoiGeojson, ParsePeriods(r.periods).value,
                                 ParseIndices(r.indices).value, ParsePeriod(r.referencePeriod).value,
                                 r.bufferDistance, r.cloudThreshold, r.exportToDrive, r.driveFolder))
  }

  /** An analysis request is accepted exactly when every field bound holds and exactly one area of
      interest is given; the reference period need not be among the requested periods. */
  lemma AnalysisAcceptedIff(r: RawAnalysisRequest)
    ensures ValidateAnalysisRequest(r).Accepted? <==>
              1 <= |r.siteName| <= 100 && BoxFieldOk(r.bbox) && GeometryFieldOk(r.aoiGeojson)
              && |r.periods| >= 2 && (forall k :: 0 <= k < |r.periods| ==> ParsePeriod(r.periods[k]).Some?)
              && |r.indices| >= 1 && (forall k :: 0 <= k < |r.indices| ==> ParseIndex(r.indices[k]).Some?)
              && ParsePeriod(r.referencePeriod).Some?
              && 0.0 <= r.bufferDistance <= 10000.0 && 0.0 <= r.cloudThreshold <= 100.0
              && (r.bbox.Some? != r.aoiGeojson.Some?)
  {
  }

  /** Once the fields are accepted, a missing or a doubled area of interest is refused with its own message. */
  lemma AoiMessages(r: RawAnalysisRequest)
    requires AnalysisViolations(r) == []
    ensures r.bbox.None? && r.aoiGeojson.None? ==> ValidateAnalysisRequest(r) == Rejected(PostInitError(MissingAoi))
    ensures r.bbox.Some? && r.aoiGeojson.Some? ==> ValidateAnalysisRequest(r) == Rejected(PostInitError(BothAois))
  {
  }

  /** The defaults are accepted with a valid box, and the reference period is not checked against the periods. */
  lemma {:induction false} DefaultsAccepted(b: BoundingBox)
    requires ValidBox(b)
    ensures ValidateAnalysisRequest(DefaultAnalysisRequest(Some(b), None)).Accepted?
    ensures ValidateAnalysisRequest(DefaultAnalysisRequest(Some(b), None).(referencePeriod := "2010s")).Accepted?
  {
    var r := DefaultAnalysisRequest(Some(b), None);
    assert ParsePeriods(r.periods).Some? by {
      assert r.periods[0] == "1990s" && r.periods[1] == "present";
    }
    assert ParseIndices(r.indices).Some? by {
      assert r.indices[0] == "ndvi";
    }
  }

  /** The body of a preview request as received. */
  datatype RawPreviewRequest = RawPreviewRequest(bbox: Option<BoundingBox>, aoiGeojson: Option<GeoJsonGeometry>,
                                                 period: string, index: string)

  datatype PreviewRequest = PreviewRequest(bbox: Option<BoundingBox>, aoiGeojson: Option<GeoJsonGeometry>,
                                           period: Period, index: IndexType)

  /** The preview defaults: the present period and NDVI. */
  function DefaultPreviewRequest(bbox: Option<BoundingBox>, aoiGeojson: Option<GeoJsonGeometry>): RawPreviewRequest {
    RawPreviewRequest(bbox, aoiGeojson, "present", "ndvi")
  }

  function PreviewViolations(r: RawPreviewRequest): seq<string> {
    (if BoxFieldOk(r.bbox) then [] else ["bbox"])
    + (if GeometryFieldOk(r.aoiGeojson) then [] else ["aoi_geojson"])
    + (if ParsePeriod(r.period).Some? then [] else ["period"])
    + (if ParseIndex(r.index).Some? then [] else ["index"])
  }

  /** Building a `PreviewRequest`: field validation, then the area-of-interest rule. */
  function ValidatePreviewRequest(r: RawPreviewRequest): (v: Validation<PreviewRequest>)
    ensures v.Accepted? ==> v.value.bbox == r.bbox && v.value.aoiGeojson == r.aoiGeojson
    ensures v.Accepted? ==> Some(v.value.period) == ParsePeriod(r.period) && Some(v.value.index) == ParseIndex(r.index)
    ensures v.Rejected? && v.reason.FieldErrors? ==> v.reason.fields == PreviewViolations(r) != []
  {
    var bad := PreviewViolations(r);
    if bad != [] then Rejected(FieldErrors(bad))
    else match AoiRule(r.bbox, r.aoiGeojson)
      case Some(message) => Rejected(PostInitError(message))
      case None => Accepted(PreviewRequest(r.bbox, r.aoiGeojson, ParsePeriod(r.period).value, ParseIndex(r.index).value))
  }

  /** A preview request is accepted exactly when its fields are valid and exactly one area of interest is given. */
  lemma PreviewAcceptedIff(r: RawPreviewRequest)
    ensures ValidatePreviewRequest(r).Accepted? <==>
              BoxFieldOk(r.bbox) && GeometryFieldOk(r.aoiGeojson) && ParsePeriod(r.period).Some? && ParseIndex(r.index).Some?
              && (r.bbox.Some? != r.aoiGeojson.Some?)
  {
  }
}
