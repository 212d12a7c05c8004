/** Constant tables of the platform (temporal periods, sensor band maps, cloud
    mask bits, change thresholds, change classes), their lookups, and the
    analysis configuration object. */
module Config {
  import opened Common

  // ---------------------------------------------------------------------------
  // ISO 8601 calendar dates "YYYY-MM-DD"
  // ---------------------------------------------------------------------------

  predicate IsDigit(c: char) {
    '0' <= c <= '9'
  }

  function DigitValue(c: char): int {
    c as int - '0' as int
  }

  function Year(s: string): int
    requires |s| == 10
  {
    1000 * DigitValue(s[0]) + 100 * DigitValue(s[1]) + 10 * DigitValue(s[2]) + DigitValue(s[3])
  }

  function Month(s: string): int
    requires |s| == 10
  {
    10 * DigitValue(s[5]) + DigitValue(s[6])
  }

  function Day(s: string): int
    requires |s| == 10
  {
    10 * DigitValue(s[8]) + DigitValue(s[9])
  }

  function DaysInMonth(year: int, month: int): int {
    if month == 2 then (if (year % 4 == 0 && year % 100 != 0) || year % 400 == 0 then 29 else 28)
    else if month == 4 || month == 6 || month == 9 || month == 11 then 30
    else 31
  }

  /** `s` is a calendar date written "YYYY-MM-DD". */
  predicate IsIsoDate(s: string) {
    |s| == 10 && s[4] == '-' && s[7] == '-'
    && IsDigit(s[0]) && IsDigit(s[1]) && IsDigit(s[2]) && IsDigit(s[3])
    && IsDigit(s[5]) && IsDigit(s[6]) && IsDigit(s[8]) && IsDigit(s[9])
    && 1 <= Month(s) <= 12 && 1 <= Day(s) <= DaysInMonth(Year(s), Month(s))
  }

  /** Chronological rank of a date: earlier dates have smaller keys. */
  function DateKey(s: string): int
    requires |s| == 10
  {
    Year(s) * 10000 + Month(s) * 100 + Day(s)
  }

  // ---------------------------------------------------------------------------
  // Temporal periods
  // ---------------------------------------------------------------------------

  datatype PeriodInfo = PeriodInfo(start: string, end: string, sensors: seq<string>, description: string)

  const LandsatTM: string := "LANDSAT/LT05/C02/T1_L2"
  const LandsatETM: string := "LANDSAT/LE07/C02/T1_L2"
  const LandsatOLI: string := "LANDSAT/LC08/C02/T1_L2"
  const Sentinel2: string := "COPERNICUS/S2_SR_HARMONIZED"

  /** A period runs from an ISO date to a strictly later ISO date and names at least one sensor. */
  predicate WellFormedPeriod(info: PeriodInfo) {
    IsIsoDate(info.start) && IsIsoDate(info.end) && DateKey(info.start) < DateKey(info.end)
    && |info.sensors| >= 1
  }

  /** `TEMPORAL_PERIODS` */
  function TemporalPeriods(): (m: map<string, PeriodInfo>)
    ensures m.Keys == {"1990s", "2000s", "2010s", "present"}
  {
    map[
      "1990s" := PeriodInfo("1985-01-01", "1999-12-31", [LandsatTM], "Pre-2000 baseline (Landsat 5 TM)"),
      "2000s" := PeriodInfo("2000-01-01", "2012-12-31", [LandsatETM, LandsatTM], "Early 2000s (Landsat 5/7)"),
      "2010s" := PeriodInfo("2013-01-01", "2020-12-31", [LandsatOLI], "Recent decade (Landsat 8 OLI)"),
      "present" := PeriodInfo("2021-01-01", "2024-12-31", [LandsatOLI, Sentinel2], "Current period (Landsat 8 + Sentinel-2)")
    ]
  }

  /** `list(TEMPORAL_PERIODS.keys())`, in the table's order. */
  function PeriodNames(): (r: seq<string>)
    ensures Distinct(r) && |r| == 4
    ensures forall p :: p in r <==> p in TemporalPeriods()
  {
    ["1990s", "2000s", "2010s", "present"]
  }

  lemma Date19850101()
    ensures IsIsoDate("1985-01-01") && DateKey("1985-01-01") == 19850101
  {
  }

  lemma Date19991231()
    ensures IsIsoDate("1999-12-31") && DateKey("1999-12-31") == 19991231
  {
  }

  lemma Dates1990s()
    ensures WellFormedPeriod(TemporalPeriods()["1990s"])
  {
    var info := TemporalPeriods()["1990s"];
    assert info.start == "1985-01-01" && info.end == "1999-12-31" && |info.sensors| >= 1;
    Date19850101();
    Date19991231();
  }

  lemma Date20000101()
    ensures IsIsoDate("2000-01-01") && DateKey("2000-01-01") == 20000101
  {
  }

  lemma Date20121231()
    ensures IsIsoDate("2012-12-31") && DateKey("2012-12-31") == 20121231
  {
  }

  lemma Dates2000s()
    ensures WellFormedPeriod(TemporalPeriods()["2000s"])
  {
    var info := TemporalPeriods()["2000s"];
    assert info.start == "2000-01-01" && info.end == "2012-12-31" && |info.sensors| >= 1;
    Date20000101();
    Date20121231();
  }

  lemma Date20130101()
    ensures IsIsoDate("2013-01-01") && DateKey("2013-01-01") == 20130101
  {
  }

  lemma Date20201231()
    ensures IsIsoDate("2020-12-31") && DateKey("2020-12-31") == 20201231
  {
  }

  lemma Dates2010s()
    ensures WellFormedPeriod(TemporalPeriods()["2010s"])
  {
    var info := TemporalPeriods()["2010s"];
    assert info.start == "2013-01-01" && info.end == "2020-12-31" && |info.sensors| >= 1;
    Date20130101();
    Date20201231();
  }

  lemma Date20210101()
    ensures IsIsoDate("2021-01-01") && DateKey("2021-01-01") == 20210101
  {
  }

  lemma Date20241231()
    ensures IsIsoDate("2024-12-31") && DateKey("2024-12-31") == 20241231
  {
  }

  lemma DatesPresent()
    ensures WellFormedPeriod(TemporalPeriods()["present"])
  {
    var info := TemporalPeriods()["present"];
    assert info.start == "2021-01-01" && info.end == "2024-12-31" && |info.sensors| >= 1;
    Date20210101();
    Date20241231();
  }

  lemma WellFormedEntry(p: string)
    requires p in TemporalPeriods()
    ensures WellFormedPeriod(TemporalPeriods()[p])
  {
    if p == "1990s" {
      Dates1990s();
    } else if p == "2000s" {
      Dates2000s();
    } else if p == "2010s" {
      Dates2010s();
    } else {
      DatesPresent();
    }
  }

  lemma ConsecutiveEntries()
    ensures DateKey(TemporalPeriods()["1990s"].end) < DateKey(TemporalPeriods()["2000s"].start)
    ensures DateKey(TemporalPeriods()["2000s"].end) < DateKey(TemporalPeriods()["2010s"].start)
    ensures DateKey(TemporalPeriods()["2010s"].end) < DateKey(TemporalPeriods()["present"].start)
  {
    var m := TemporalPeriods();
    assert m["1990s"].end == "1999-12-31" && m["2000s"].start == "2000-01-01" && m["2000s"].end == "2012-12-31";
    assert m["2010s"].start == "2013-01-01" && m["2010s"].end == "2020-12-31" && m["present"].start == "2021-01-01";
    Date19991231();
    Date20000101();
    Date20121231();
    Date20130101();
    Date20201231();
    Date20210101();
  }

  /** Every period runs from an ISO date to a strictly later ISO date. */
  lemma {:induction false} PeriodsWellFormed()
    ensures forall p :: p in TemporalPeriods() ==> WellFormedPeriod(TemporalPeriods()[p])
  {
    forall p | p in TemporalPeriods()
      ensures WellFormedPeriod(TemporalPeriods()[p])
    {
      WellFormedEntry(p);
    }
  }

  /** Consecutive periods do not overlap: each one ends before the next one starts. */
  lemma {:induction false} PeriodsConsecutive()
    ensures forall i :: 0 <= i < |PeriodNames()| - 1 ==>
              DateKey(TemporalPeriods()[PeriodNames()[i]].end) < DateKey(TemporalPeriods()[PeriodNames()[i + 1]].start)
  {
    ConsecutiveEntries();
  }

  /** Python's rendering of a list of strings, `['a', 'b']`. */
  function ListRepr(items: seq<string>): string {
    "[" + Join(", ", QuoteAll(items)) + "]"
  }

  function QuoteAll(items: seq<string>): (r: seq<string>)
    ensures |r| == |items|
  {
    if items == [] then [] else ["'" + items[0] + "'"] + QuoteAll(items[1..])
  }

  /** `get_period_info` */
  function GetPeriodInfo(name: string): (r: Result<PeriodInfo>)
    ensures r.Ok? <==> name == "1990s" || name == "2000s" || name == "2010s" || name == "present"
    ensures r.Ok? ==> name in TemporalPeriods() && r.value == TemporalPeriods()[name]
    ensures r.Err? ==> r.error == UnknownPeriod(name)
  {
    if name in TemporalPeriods() then Ok(TemporalPeriods()[name])
    else Err(UnknownPeriod(name))
  }

  function UnknownPeriod(name: string): Error {
    ValueError("Unknown period: " + name + ". Valid: " + ListRepr(PeriodNames()))
  }

  /** A period found by `get_period_info` names at least one sensor. */
  lemma PeriodHasSensors(name: string)
    requires GetPeriodInfo(name).Ok?
    ensures |GetPeriodInfo(name).value.sensors| >= 1
  {
  }

  // ---------------------------------------------------------------------------
  // Sensor band mappings
  // ---------------------------------------------------------------------------

  /** One `BAND_MAPPINGS` entry: common band name to sensor band name, plus reflectance scaling. */
  datatype BandMapping = BandMapping(bands: map<string, string>, scaleFactor: real, offset: real)

  const CommonBandNames: set<string> := {"blue", "green", "red", "nir", "swir1", "swir2", "qa"}

  function LandsatTmBands(): BandMapping {
    BandMapping(map["blue" := "SR_B1", "green" := "SR_B2", "red" := "SR_B3", "nir" := "SR_B4",
                    "swir1" := "SR_B5", "swir2" := "SR_B7", "qa" := "QA_PIXEL"], 0.0000275, -0.2)
  }

  /** `BAND_MAPPINGS`: four sensors, each mapping exactly the common band names, with a scale factor in (0, 1). */
  function BandMappings(): (m: map<string, BandMapping>)
    ensures m.Keys == {LandsatTM, LandsatETM, LandsatOLI, Sentinel2}
    ensures forall s :: s in m ==> m[s].bands.Keys == CommonBandNames && 0.0 < m[s].scaleFactor < 1.0
  {
    map[
      LandsatTM := LandsatTmBands(),
      LandsatETM := LandsatTmBands(),
      LandsatOLI := BandMapping(map["blue" := "SR_B2", "green" := "SR_B3", "red" := "SR_B4", "nir" := "SR_B5",
                                    "swir1" := "SR_B6", "swir2" := "SR_B7", "qa" := "QA_PIXEL"], 0.0000275, -0.2),
      Sentinel2 := BandMapping(map["blue" := "B2", "green" := "B3", "red" := "B4", "nir" := "B8",
                                   "swir1" := "B11", "swir2" := "B12", "qa" := "QA60"], 0.0001, 0.0)
    ]
  }

  /** `get_band_mapping` */
  function GetBandMapping(sensor: string): (r: Result<BandMapping>)
    ensures r.Ok? <==> sensor == LandsatTM || sensor == LandsatETM || sensor == LandsatOLI || sensor == Sentinel2
    ensures r.Ok? ==> r.value.bands.Keys == CommonBandNames
    ensures r.Err? ==> r.error.ValueError?
  {
    if sensor in BandMappings() then Ok(BandMappings()[sensor])
    else Err(ValueError("Unknown sensor: " + sensor + ". Valid: "
                        + ListRepr([LandsatTM, LandsatETM, LandsatOLI, Sentinel2])))
  }

  // ---------------------------------------------------------------------------
  // Cloud mask bits
  // ---------------------------------------------------------------------------

  /** Landsat Collection 2 `QA_PIXEL` bit positions. */
  const LandsatCloudBit: nat := 3
  const LandsatCloudShadowBit: nat := 4
  const LandsatSnowBit: nat := 5
  const LandsatDilatedCloudBit: nat := 1

  /** Sentinel-2 `QA60` bit positions. */
  const SentinelCloudBit: nat := 10
  const SentinelCirrusBit: nat := 11

  // ---------------------------------------------------------------------------
  // Change thresholds and classes
  // ---------------------------------------------------------------------------

  /** One `CHANGE_THRESHOLDS` row. */
  datatype ThresholdRow = ThresholdRow(strongLoss: real, moderateLoss: real, stableMin: real,
                                       stableMax: real, moderateGain: real, strongGain: real)

  /** A row whose bounds are ordered loss to gain, with the stable band sharing the moderate bounds. */
  predicate WellOrderedRow(t: ThresholdRow) {
    t.strongLoss < t.moderateLoss == t.stableMin < t.stableMax == t.moderateGain < t.strongGain
  }

  /** `CHANGE_THRESHOLDS`: rows for dndvi and dnbr only, both well ordered. */
  function ChangeThresholdTable(): (m: map<string, ThresholdRow>)
    ensures m.Keys == {"dndvi", "dnbr"}
    ensures forall k :: k in m ==> WellOrderedRow(m[k])
  {
    map[
      "dndvi" := ThresholdRow(-0.15, -0.05, -0.05, 0.05, 0.05, 0.15),
      "dnbr" := ThresholdRow(-0.20, -0.10, -0.10, 0.10, 0.10, 0.20)
    ]
  }

  /** One `CHANGE_CLASSES` entry. */
  datatype ClassEntry = ClassEntry(labelEn: string, labelEs: string, color: string)

  /** `CHANGE_CLASSES`: exactly the classes 1..5, each with a "#rrggbb" colour. */
  function ChangeClasses(): (m: map<int, ClassEntry>)
    ensures forall c :: c in m <==> 1 <= c <= 5
    ensures forall c :: c in m ==> |m[c].color| == 7 && m[c].color[0] == '#'
  {
    map[
      1 := ClassEntry("Strong Loss", "Pérdida Fuerte", "#d7191c"),
      2 := ClassEntry("Moderate Loss", "Pérdida Moderada", "#fdae61"),
      3 := ClassEntry("Stable", "Estable", "#ffffbf"),
      4 := ClassEntry("Moderate Gain", "Ganancia Moderada", "#a6d96a"),
      5 := ClassEntry("Strong Gain", "Ganancia Fuerte", "#1a9641")
    ]
  }

  // ---------------------------------------------------------------------------
  // Analysis configuration
  // ---------------------------------------------------------------------------

  const DefaultPeriods: seq<string> := ["1990s", "2000s", "2010s", "present"]
  const DefaultIndices: seq<string> := ["ndvi", "nbr"]

  /** The index list of the functions whose `indices` argument defaults to None: the same two indices. */
  function IndicesOrDefault(indices: Option<seq<string>>): (r: seq<string>)
    ensures indices.None? ==> r == DefaultIndices
    ensures indices.Some? ==> r == indices.value
  {
    if indices.None? then DefaultIndices else indices.value
  }

  /** `VegChangeConfig`: a mutable record; construction checks nothing. */
  class VegChangeConfig {
    var siteName: string
    var siteDescription: string
    var region: string
    var country: string
    var periods: seq<string>
    var bufferDistance: real
    var exportScale: int
    var cloudThreshold: real
    var minImages: int
    var indices: seq<string>
    var outputDir: string
    var exportToDrive: bool
    var driveFolder: string
    var targetEpsg: int

    constructor (siteName: string := "Analysis Site",
                 siteDescription: string := "Vegetation change analysis",
                 region: string := "Region",
                 country: string := "Country",
                 periods: seq<string> := DefaultPeriods,
                 bufferDistance: real := 500.0,
                 exportScale: int := 30,
                 cloudThreshold: real := 20.0,
                 minImages: int := 5,
                 indices: seq<string> := DefaultIndices,
                 outputDir: string := "outputs",
                 exportToDrive: bool := true,
                 driveFolder: string := "VegChangeAnalysis",
                 targetEpsg: int := 4326)
      ensures this.siteName == siteName && this.siteDescription == siteDescription
      ensures this.region == region && this.country == country
      ensures this.periods == periods && this.indices == indices
      ensures this.bufferDistance == bufferDistance && this.exportScale == exportScale
      ensures this.cloudThreshold == cloudThreshold && this.minImages == minImages
      ensures this.outputDir == outputDir && this.exportToDrive == exportToDrive
      ensures this.driveFolder == driveFolder && this.targetEpsg == targetEpsg
    {
      this.siteName := siteName;
      this.siteDescription := siteDescription;
      this.region := region;
      this.country := country;
      this.periods := periods;
      this.bufferDistance := bufferDistance;
      this.exportScale := exportScale;
      this.cloudThreshold := cloudThreshold;
      this.minImages := minImages;
      this.indices := indices;
      this.outputDir := outputDir;
      this.exportToDrive := exportToDrive;
      this.driveFolder := driveFolder;
      this.targetEpsg := targetEpsg;
    }
  }

  /** `VegChangeConfig()` with no arguments: all four periods, ndvi and nbr, 20 % clouds, 30 m scale. */
  method DefaultConfig() returns (c: VegChangeConfig)
    ensures fresh(c)
    ensures c.periods == PeriodNames() && c.indices == ["ndvi", "nbr"]
    ensures c.cloudThreshold == 20.0 && c.exportScale == 30 && c.bufferDistance == 500.0
  {
    c := new VegChangeConfig();
  }

  /** Construction validates nothing: even a negative scale and an unknown period are accepted. */
  method UnvalidatedConfig() returns (c: VegChangeConfig)
    ensures fresh(c)
    ensures c.exportScale < 0 && c.cloudThreshold > 100.0 && c.periods == ["1800s"]
  {
    c := new VegChangeConfig(periods := ["1800s"], exportScale := -1, cloudThreshold := 150.0);
  }
}
