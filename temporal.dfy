/** Period composites: per-sensor collections filtered by area, dates and cloud
    cover, merged in sensor order and reduced to one median image per period. */
module Temporal {
  import opened Common
  import Config
  import opened Imagery
  import CloudMasking

  /** The sensor-id test that picks the Sentinel-2 path. */
  predicate IsSentinel(sensor: string) {
    Contains(sensor, "S2") || Contains(sensor, "COPERNICUS")
  }

  /** The scene property a sensor's collection compares against the cloud threshold. */
  function CloudProperty(sensor: string): (p: string)
    ensures p == "CLOUDY_PIXEL_PERCENTAGE" <==> IsSentinel(sensor)
    ensures p == "CLOUD_COVER" <==> !IsSentinel(sensor)
  {
    if IsSentinel(sensor) then "CLOUDY_PIXEL_PERCENTAGE" else "CLOUD_COVER"
  }

  /** The cloud mask each image of a collection goes through, at one pixel. */
  function MaskPixel(c: Collection, p: CloudMasking.Pixel): (r: CloudMasking.Pixel)
    ensures r.values == p.values
    ensures IsSentinel(c.sensor) ==> r == CloudMasking.ApplyCloudMaskSentinel(p)
    ensures !IsSentinel(c.sensor) ==> r == CloudMasking.ApplyCloudMaskLandsat(p)
  {
    if IsSentinel(c.sensor) then CloudMasking.ApplyCloudMaskSentinel(p) else CloudMasking.ApplyCloudMaskLandsat(p)
  }

  /** One sensor's filtered and preprocessed collection inside `create_fused_composite`. */
  function SensorCollection(aoi: Aoi, start: string, end: string, sensor: string, cloudThreshold: real): Collection {
    Collection(sensor, aoi, start, end, cloudThreshold)
  }

  /** The merged collection: one collection per sensor, in the order the sensors are listed. */
  function Merged(aoi: Aoi, start: string, end: string, sensors: seq<string>, cloudThreshold: real): (m: seq<Collection>)
    ensures |m| == |sensors|
    ensures forall i :: 0 <= i < |sensors| ==> m[i] == SensorCollection(aoi, start, end, sensors[i], cloudThreshold)
    decreases |sensors|
  {
    if sensors == [] then []
    else Merged(aoi, start, end, sensors[..|sensors| - 1], cloudThreshold)
         + [SensorCollection(aoi, start, end, sensors[|sensors| - 1], cloudThreshold)]
  }

  /** What `median()` on a merged collection that is still `None` raises. */
  const NoneMedian: string := "'NoneType' object has no attribute 'median'"

  function FusedProps(sensors: seq<string>, start: string, end: string): map<string, Prop> {
    map["sensors" := TextList(sensors), "start_date" := Text(start), "end_date" := Text(end)]
  }

  /** `create_fused_composite`: the clipped median of the merged collection, tagged with
      its sensors and dates; with no sensors the merge never starts and `median` fails. */
  function FusedComposite(aoi: Aoi, start: string, end: string, sensors: seq<string>, cloudThreshold: real): (r: Result<Image>)
    ensures r.Ok? <==> |sensors| > 0
    ensures r.Err? ==> r.error == AttributeError(NoneMedian)
    ensures r.Ok? ==> Defined(r.value) && Bands(r.value) == HarmonizedBands
    ensures r.Ok? ==> Props(r.value) == FusedProps(sensors, start, end)
  {
    if sensors == [] then Err(AttributeError(NoneMedian))
    else Ok(WithProps(MedianOf(Merged(aoi, start, end, sensors, cloudThreshold), aoi), FusedProps(sensors, start, end)))
  }

  method CreateFusedComposite(aoi: Aoi, start: string, end: string, sensors: seq<string>, cloudThreshold: real := 20.0)
    returns (r: Result<Image>)
    ensures r == FusedComposite(aoi, start, end, sensors, cloudThreshold)
  {
    var merged: Option<seq<Collection>> := None;
    for i := 0 to |sensors|
      invariant merged == if i == 0 then None else Some(Merged(aoi, start, end, sensors[..i], cloudThreshold))
    {
      var processed := SensorCollection(aoi, start, end, sensors[i], cloudThreshold);
      assert sensors[..i + 1][..i] == sensors[..i];
      assert Merged(aoi, start, end, sensors[..i + 1], cloudThreshold)
          == Merged(aoi, start, end, sensors[..i], cloudThreshold) + [processed];
      if merged.None? {
        assert i == 0 && sensors[..i] == [];
        assert Merged(aoi, start, end, sensors[..i], cloudThreshold) == [];
        assert Merged(aoi, start, end, sensors[..i + 1], cloudThreshold) == [processed];
        merged := Some([processed]);
      } else {
        merged := Some(merged.value + [processed]);
      }
    }
    assert sensors[..|sensors|] == sensors;
    if merged.None? {
      return Err(AttributeError(NoneMedian));
    }
    r := Ok(WithProps(MedianOf(merged.value, aoi), FusedProps(sensors, start, end)));
  }

  /** The i-th merged collection is the i-th sensor's, filtered on the cloud property its id selects. */
  lemma {:induction false} FusedSensorDispatch(aoi: Aoi, start: string, end: string, sensors: seq<string>,
                                               cloudThreshold: real, i: nat)
    requires i < |sensors|
    ensures FusedComposite(aoi, start, end, sensors, cloudThreshold).Ok?
    ensures FusedComposite(aoi, start, end, sensors, cloudThreshold).value.src.merged[i]
            == Collection(sensors[i], aoi, start, end, cloudThreshold)
    ensures CloudProperty(FusedComposite(aoi, start, end, sensors, cloudThreshold).value.src.merged[i].sensor)
            == (if Contains(sensors[i], "S2") || Contains(sensors[i], "COPERNICUS")
                then "CLOUDY_PIXEL_PERCENTAGE" else "CLOUD_COVER")
  {
    var m := Merged(aoi, start, end, sensors, cloudThreshold);
    assert m[i] == SensorCollection(aoi, start, end, sensors[i], cloudThreshold);
  }

  /** The configured Sentinel-2 id takes the Sentinel path. */
  lemma SentinelIdIsSentinel()
    ensures IsSentinel(Config.Sentinel2)
  {
    assert StartsWith(Config.Sentinel2, "COPERNICUS");
  }

  /** What `get_image_count` sizes: a sensor's collection filtered to the area, the dates and the scenes
      whose cloud property lies below the limit. The size itself is computed remotely. */
  datatype ImageCount = SizeOf(filtered: Collection, cloudProperty: string)

  /** `get_image_count`: the cloud property is chosen from the sensor id, the limit defaults to 20. */
  function GetImageCount(aoi: Aoi, start: string, end: string, sensor: string, cloudThreshold: real := 20.0)
    : (n: ImageCount)
    ensures n.filtered == Merged(aoi, start, end, [sensor], cloudThreshold)[0]
    ensures n.cloudProperty == CloudProperty(n.filtered.sensor)
  {
    var property := if Contains(sensor, "S2") || Contains(sensor, "COPERNICUS") then "CLOUDY_PIXEL_PERCENTAGE"
                    else "CLOUD_COVER";
    SizeOf(Collection(sensor, aoi, start, end, cloudThreshold), property)
  }

  /** For any sensor of a fused composite, `get_image_count` with the same area, dates and limit counts
      exactly the collection the composite merges for that sensor, filtered on the same property. */
  lemma {:induction false} ImageCountMatchesFused(aoi: Aoi, start: string, end: string, sensors: seq<string>,
                                                  cloudThreshold: real, i: nat)
    requires i < |sensors|
    ensures FusedComposite(aoi, start, end, sensors, cloudThreshold).Ok?
    ensures var merged := FusedComposite(aoi, start, end, sensors, cloudThreshold).value.src.merged;
            var n := GetImageCount(aoi, start, end, sensors[i], cloudThreshold);
            i < |merged| && n.filtered == merged[i] && n.cloudProperty == CloudProperty(merged[i].sensor)
  {
    FusedSensorDispatch(aoi, start, end, sensors, cloudThreshold, i);
  }

  // ---------------------------------------------------------------------------
  // create_all_period_composites
  // ---------------------------------------------------------------------------

  function PeriodsOrDefault(periods: Option<seq<string>>): seq<string> {
    if periods.Some? then periods.value else Config.PeriodNames()
  }

  /** One period's composite, tagged with the period name. */
  function PeriodComposite(aoi: Aoi, period: string, cloudThreshold: real): (r: Result<Image>)
    ensures r.Ok? <==> period in Config.TemporalPeriods()
    ensures r.Err? ==> r.error == Config.UnknownPeriod(period)
    ensures r.Ok? ==> Bands(r.value) == HarmonizedBands
    ensures r.Ok? ==> "period" in Props(r.value) && Props(r.value)["period"] == Text(period)
  {
    var info := Config.GetPeriodInfo(period);
    assert info.Ok? ==> |info.value.sensors| >= 1 by {
      if info.Ok? {
        Config.PeriodHasSensors(period);
      }
    }
    if info.Err? then Err(info.error)
    else
      var fused := FusedComposite(aoi, info.value.start, info.value.end, info.value.sensors, cloudThreshold);
      Ok(WithProps(fused.value, map["period" := Text(period)]))
  }

  function CompositeOf(aoi: Aoi, cloudThreshold: real): string -> Result<Image> {
    period => PeriodComposite(aoi, period, cloudThreshold)
  }

  /** The dictionary `create_all_period_composites` builds, or the exception of the first unknown period. */
  function AllPeriodComposites(aoi: Aoi, periods: seq<string>, cloudThreshold: real): Result<map<string, Image>> {
    Collect(periods, CompositeOf(aoi, cloudThreshold), |periods|)
  }

  /** `create_all_period_composites` */
  method CreateAllPeriodComposites(aoi: Aoi, periods: Option<seq<string>> := None, cloudThreshold: real := 20.0)
    returns (r: Result<map<string, Image>>)
    ensures r == AllPeriodComposites(aoi, PeriodsOrDefault(periods), cloudThreshold)
  {
    var ps := PeriodsOrDefault(periods);
    ghost var build := CompositeOf(aoi, cloudThreshold);
    var composites: map<string, Image> := map[];
    for i := 0 to |ps|
      invariant Collect(ps, build, i) == Ok(composites)
    {
      var composite := CreatePeriodComposite(aoi, ps[i], cloudThreshold);
      CollectStep(ps, build, i, composites);
      if composite.Err? {
        return Err(composite.error);
      }
      composites := composites[ps[i] := composite.value];
    }
    r := Ok(composites);
  }

  /** One iteration of the loop: look the period up, fuse its sensors, tag the result with the period name. */
  method CreatePeriodComposite(aoi: Aoi, periodName: string, cloudThreshold: real) returns (r: Result<Image>)
    ensures r == PeriodComposite(aoi, periodName, cloudThreshold)
  {
    var periodInfo := Config.GetPeriodInfo(periodName);
    if periodInfo.Err? {
      return Err(periodInfo.error);
    }
    Config.PeriodHasSensors(periodName);
    var composite := CreateFusedComposite(aoi, periodInfo.value.start, periodInfo.value.end,
                                          periodInfo.value.sensors, cloudThreshold);
    r := Ok(WithProps(composite.value, map["period" := Text(periodName)]));
  }

  /** A known period always yields a composite with the harmonized bands and the period's metadata. */
  lemma {:induction false} PeriodCompositeOk(aoi: Aoi, period: string, cloudThreshold: real)
    requires period in Config.TemporalPeriods()
    ensures PeriodComposite(aoi, period, cloudThreshold).Ok?
    ensures Props(PeriodComposite(aoi, period, cloudThreshold).value)
            == FusedProps(Config.TemporalPeriods()[period].sensors, Config.TemporalPeriods()[period].start,
                          Config.TemporalPeriods()[period].end)["period" := Text(period)]
  {
    Config.PeriodHasSensors(period);
  }

  /** The dictionary is built exactly when every requested name is a period; otherwise the
      first unknown name raises the ValueError of `get_period_info`. */
  lemma {:induction false} AllPeriodCompositesOutcome(aoi: Aoi, periods: seq<string>, cloudThreshold: real)
    ensures Collect(periods, CompositeOf(aoi, cloudThreshold), |periods|).Ok?
            <==> forall i :: 0 <= i < |periods| ==> periods[i] in Config.TemporalPeriods()
    ensures forall j :: 0 <= j < |periods| && periods[j] !in Config.TemporalPeriods()
                        && (forall i :: 0 <= i < j ==> periods[i] in Config.TemporalPeriods())
                     ==> Collect(periods, CompositeOf(aoi, cloudThreshold), |periods|)
                         == Err(Config.UnknownPeriod(periods[j]))
  {
    var build := CompositeOf(aoi, cloudThreshold);
    CollectOk(periods, build, |periods|);
    forall j | 0 <= j < |periods| && periods[j] !in Config.TemporalPeriods()
                 && (forall i :: 0 <= i < j ==> periods[i] in Config.TemporalPeriods())
      ensures Collect(periods, build, |periods|) == Err(Config.UnknownPeriod(periods[j]))
    {
      CollectFirstError(periods, build, |periods|, j);
    }
  }

  /** One entry per distinct requested period, each the period's composite tagged with its own name. */
  lemma {:induction false} AllPeriodCompositesEntries(aoi: Aoi, periods: seq<string>, cloudThreshold: real)
    requires Collect(periods, CompositeOf(aoi, cloudThreshold), |periods|).Ok?
    ensures forall k :: k in Collect(periods, CompositeOf(aoi, cloudThreshold), |periods|).value
                        <==> k in periods
    ensures forall k :: k in Collect(periods, CompositeOf(aoi, cloudThreshold), |periods|).value ==>
              var img := Collect(periods, CompositeOf(aoi, cloudThreshold), |periods|).value[k];
              Bands(img) == HarmonizedBands && "period" in Props(img) && Props(img)["period"] == Text(k)
  {
    var build := CompositeOf(aoi, cloudThreshold);
    CollectEntries(periods, build, |periods|);
    assert periods[..|periods|] == periods;
  }

  /** The composites exist exactly when every requested name is a period, and are keyed by the requested names. */
  lemma {:induction false} AllPeriodCompositesKeys(aoi: Aoi, periods: seq<string>, cloudThreshold: real)
    ensures AllPeriodComposites(aoi, periods, cloudThreshold).Ok?
            <==> forall i :: 0 <= i < |periods| ==> periods[i] in Config.TemporalPeriods()
    ensures AllPeriodComposites(aoi, periods, cloudThreshold).Ok? ==>
              forall k :: k in AllPeriodComposites(aoi, periods, cloudThreshold).value <==> k in periods
  {
    AllPeriodCompositesOutcome(aoi, periods, cloudThreshold);
    if AllPeriodComposites(aoi, periods, cloudThreshold).Ok? {
      AllPeriodCompositesEntries(aoi, periods, cloudThreshold);
    }
  }

  /** Without a period list, every configured period gets a composite. */
  lemma {:induction false} DefaultAllPeriods(aoi: Aoi, cloudThreshold: real)
    ensures Collect(Config.PeriodNames(), CompositeOf(aoi, cloudThreshold), 4).Ok?
    ensures Collect(Config.PeriodNames(), CompositeOf(aoi, cloudThreshold), 4).value.Keys
            == Config.TemporalPeriods().Keys
  {
    var ps := Config.PeriodNames();
    AllPeriodCompositesOutcome(aoi, ps, cloudThreshold);
    AllPeriodCompositesEntries(aoi, ps, cloudThreshold);
  }
}
