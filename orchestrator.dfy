/** The change-analysis orchestrator: the four-stage analysis with its progress
    protocol, the file-based variant, previews, and the job workflow over the job
    store. Remote computations are the symbolic images of `Imagery`; loading an
    area of interest from a file and reading the clock are inputs. */
module Orchestrator {
  import opened Common
  import Config
  import opened Imagery
  import IndexBase
  import IndexConvenience
  import Temporal
  import Detection
  import Jobs

  // ---------------------------------------------------------------------------
  // Progress protocol of `analyze`
  // ---------------------------------------------------------------------------

  /** One `progress_callback(progress, step)` call. */
  datatype ProgressEvent = ProgressEvent(progress: real, step: string)

  /** The calls `analyze` makes, in order, when every stage succeeds. */
  const AnalyzeEvents: seq<ProgressEvent> := [
    ProgressEvent(0.0, "Starting analysis"),
    ProgressEvent(0.05, "Creating temporal composites"),
    ProgressEvent(0.40, "Composites created"),
    ProgressEvent(0.45, "Calculating spectral indices"),
    ProgressEvent(0.60, "Indices calculated"),
    ProgressEvent(0.65, "Analyzing vegetation change"),
    ProgressEvent(0.85, "Change analysis complete"),
    ProgressEvent(0.90, "Generating statistics"),
    ProgressEvent(1.0, "Analysis complete")
  ]

  predicate Increasing(events: seq<ProgressEvent>) {
    forall i, j :: 0 <= i < j < |events| ==> events[i].progress < events[j].progress
  }

  predicate NonDecreasing(events: seq<ProgressEvent>) {
    forall i, j :: 0 <= i < j < |events| ==> events[i].progress <= events[j].progress
  }

  /** The reported progress strictly increases from 0.0 to 1.0. */
  lemma AnalyzeEventsIncrease()
    ensures |AnalyzeEvents| == 9 && Increasing(AnalyzeEvents)
    ensures AnalyzeEvents[0].progress == 0.0 && AnalyzeEvents[8].progress == 1.0
  {
  }

  // ---------------------------------------------------------------------------
  // The analysis
  // ---------------------------------------------------------------------------

  /** What `analyze` returns: composites with their index bands, the change images and their statistics. */
  datatype Analysis = Analysis(composites: map<string, Image>, changes: map<string, Image>,
                               statistics: map<string, Jobs.Stats>)

  /** `add_all_indices` applied to every composite; the first failure propagates. Whether it fails,
      and how, depends only on the index names, so the order of the periods does not matter. */
  function IndexAll(table: map<string, IndexBase.SpectralIndex>, names: seq<string>, composites: map<string, Image>,
                    indices: seq<string>): (r: Result<map<string, Image>>)
    ensures r.Err? <==> composites != map[] && IndexConvenience.FirstUnknown(table, indices).Some?
    ensures r.Err? ==> r.error == IndexConvenience.UnknownIndex(IndexConvenience.FirstUnknown(table, indices).value, names)
    ensures r.Ok? ==> r.value.Keys == composites.Keys
    ensures r.Ok? ==> forall p :: p in composites ==> IndexConvenience.AddAll(table, names, composites[p], indices) == Ok(r.value[p])
  {
    var unknown := IndexConvenience.FirstUnknown(table, indices);
    if composites != map[] && unknown.Some? then Err(IndexConvenience.UnknownIndex(unknown.value, names))
    else
      assert forall p :: p in composites ==> IndexConvenience.AddAll(table, names, composites[p], indices).Ok? by {
        forall p | p in composites
          ensures IndexConvenience.AddAll(table, names, composites[p], indices).Ok?
        {
          IndexConvenience.AddAllError(table, names, composites[p], indices);
        }
      }
      Ok(map p | p in composites :: IndexConvenience.AddAll(table, names, composites[p], indices).value)
  }

  /** One `generate_change_statistics` handle per change image, under the comparison's own key. */
  function StatisticsFor(changes: map<string, Image>, aoi: Aoi, scale: int): (r: map<string, Jobs.Stats>)
    ensures r.Keys == changes.Keys
    ensures forall k :: k in r ==> r[k] == Jobs.Stats(changes[k], aoi, scale)
  {
    map k | k in changes :: Jobs.Stats(changes[k], aoi, scale)
  }

  /** What `analyze` returns or raises, and how many progress events it reports before that:
      composites, then indices, then the change analysis, each stage raising the first error it meets. */
  function AnalyzeSpec(table: map<string, IndexBase.SpectralIndex>, names: seq<string>, aoi: Aoi, periods: seq<string>,
                       indices: seq<string>, reference: string, cloudThreshold: real, scale: int): (r: (Result<Analysis>, nat))
    ensures r.1 == 2 || r.1 == 4 || r.1 == 6 || r.1 == 9
    ensures r.0.Ok? <==> r.1 == 9
    ensures r.0.Ok? ==> r.0.value.statistics.Keys == r.0.value.changes.Keys
  {
    match Temporal.AllPeriodComposites(aoi, periods, cloudThreshold)
    case Err(e) => (Err(e), 2)
    case Ok(composites) => IndexStage(table, names, aoi, composites, indices, reference, scale)
  }

  /** The stages after the composites exist. */
  function IndexStage(table: map<string, IndexBase.SpectralIndex>, names: seq<string>, aoi: Aoi,
                      composites: map<string, Image>, indices: seq<string>, reference: string, scale: int)
    : (r: (Result<Analysis>, nat))
    ensures r.1 == 4 || r.1 == 6 || r.1 == 9
    ensures r.0.Ok? <==> r.1 == 9
    ensures r.0.Ok? ==> r.0.value.statistics.Keys == r.0.value.changes.Keys
  {
    match IndexAll(table, names, composites, indices)
    case Err(e) => (Err(e), 4)
    case Ok(indexed) => ChangeStage(aoi, indexed, indices, reference, scale)
  }

  /** The stages after the index bands are added. */
  function ChangeStage(aoi: Aoi, indexed: map<string, Image>, indices: seq<string>, reference: string, scale: int)
    : (r: (Result<Analysis>, nat))
    ensures r.1 == 6 || r.1 == 9
    ensures r.0.Ok? <==> r.1 == 9
    ensures r.0.Ok? ==> r.0.value.statistics.Keys == r.0.value.changes.Keys
  {
    if reference !in indexed then (Err(Detection.MissingReference(reference)), 6)
    else
      match Detection.ChangeAnalysis(indexed, reference, indices)
      case Err(e) => (Err(e), 6)
      case Ok(changes) => (Ok(Analysis(indexed, changes, StatisticsFor(changes, aoi, scale))), 9)
  }

  /** The analysis succeeds exactly when every period is known, the reference is among them, every index is
      registered, and the index list is non-empty unless the reference is the only period. */
  lemma {:induction false} AnalyzeSucceeds(table: map<string, IndexBase.SpectralIndex>, names: seq<string>, aoi: Aoi,
                                           periods: seq<string>, indices: seq<string>, reference: string,
                                           cloudThreshold: real, scale: int)
    ensures AnalyzeSpec(table, names, aoi, periods, indices, reference, cloudThreshold, scale).0.Ok? <==>
              (forall i :: 0 <= i < |periods| ==> periods[i] in Config.TemporalPeriods())
              && reference in periods
              && IndexConvenience.FirstUnknown(table, indices).None?
              && (|indices| >= 1 || forall i :: 0 <= i < |periods| ==> periods[i] == reference)
  {
    Temporal.AllPeriodCompositesKeys(aoi, periods, cloudThreshold);
    var c := Temporal.AllPeriodComposites(aoi, periods, cloudThreshold);
    if c.Ok? {
      var x := IndexAll(table, names, c.value, indices);
      if reference in periods {
        assert c.value != map[] by { assert reference in c.value; }
      }
      if x.Ok? && reference in x.value {
        ChangeAnalysisOk(x.value, reference, indices, periods);
      }
    }
  }

  /** With the reference present, the change analysis fails only for an empty index list and another period. */
  lemma {:induction false} ChangeAnalysisOk(indexed: map<string, Image>, reference: string, indices: seq<string>,
                                            periods: seq<string>)
    requires reference in indexed && forall k :: k in indexed <==> k in periods
    ensures Detection.ChangeAnalysis(indexed, reference, indices).Ok?
            <==> |indices| >= 1 || forall i :: 0 <= i < |periods| ==> periods[i] == reference
  {
    if |indices| == 0 {
      if exists i :: 0 <= i < |periods| && periods[i] != reference {
        var i :| 0 <= i < |periods| && periods[i] != reference;
        assert periods[i] in indexed;
      } else {
        forall p | p in indexed
          ensures p == reference
        {
          assert p in periods;
        }
      }
    }
  }

  /** With no periods there are no composites, so no index is ever checked: the reference is missing. */
  lemma NoPeriodsMissReference(table: map<string, IndexBase.SpectralIndex>, names: seq<string>, aoi: Aoi,
                               indices: seq<string>, reference: string, cloudThreshold: real, scale: int)
    ensures AnalyzeSpec(table, names, aoi, [], indices, reference, cloudThreshold, scale)
            == (Err(Detection.MissingReference(reference)), 6)
  {
    Temporal.AllPeriodCompositesKeys(aoi, [], cloudThreshold);
    var c := Temporal.AllPeriodComposites(aoi, [], cloudThreshold);
    assert c.value == map[];
  }

  /** `update_progress`: the event reaches the callback when there is one. */
  method UpdateProgress(events: seq<ProgressEvent>, withCallback: bool, k: nat) returns (r: seq<ProgressEvent>)
    requires k < |AnalyzeEvents|
    requires events == (if withCallback then AnalyzeEvents[..k] else [])
    ensures r == (if withCallback then AnalyzeEvents[..k + 1] else [])
  {
    r := events;
    if withCallback {
      assert AnalyzeEvents[..k] + [AnalyzeEvents[k]] == AnalyzeEvents[..k + 1];
      r := r + [AnalyzeEvents[k]];
    }
  }

  /** The loop of `analyze` that adds the index bands to each composite in turn. */
  method IndexComposites(registry: IndexBase.IndexRegistry, composites: map<string, Image>, indices: seq<string>)
    returns (r: Result<map<string, Image>>)
    ensures r == IndexAll(registry.table, registry.names, composites, indices)
  {
    var indexed := composites;
    var remaining := composites.Keys;
    while remaining != {}
      invariant remaining <= composites.Keys && indexed.Keys == composites.Keys
      invariant forall p :: p in remaining ==> indexed[p] == composites[p]
      invariant forall p :: p in composites && p !in remaining ==>
                  IndexConvenience.AddAll(registry.table, registry.names, composites[p], indices) == Ok(indexed[p])
      decreases remaining
    {
      var period :| period in remaining;
      var img := IndexConvenience.AddAllIndices(registry, indexed[period], Some(indices));
      if img.Err? {
        IndexConvenience.AddAllError(registry.table, registry.names, composites[period], indices);
        return Err(img.error);
      }
      indexed := indexed[period := img.value];
      remaining := remaining - {period};
    }
    if composites != map[] {
      var some :| some in composites;
      IndexConvenience.AddAllError(registry.table, registry.names, composites[some], indices);
    }
    var spec := IndexAll(registry.table, registry.names, composites, indices);
    assert spec.Ok?;
    assert indexed == spec.value;
    r := Ok(indexed);
  }

  /** The loop of `analyze` that requests statistics for each change image. */
  method GenerateStatistics(changes: map<string, Image>, aoi: Aoi, scale: int) returns (statistics: map<string, Jobs.Stats>)
    ensures statistics == StatisticsFor(changes, aoi, scale)
  {
    statistics := map[];
    var remaining := changes.Keys;
    while remaining != {}
      invariant remaining <= changes.Keys
      invariant statistics.Keys == changes.Keys - remaining
      invariant forall k :: k in statistics ==> statistics[k] == Jobs.Stats(changes[k], aoi, scale)
      decreases remaining
    {
      var name :| name in remaining;
      statistics := statistics[name := Jobs.Stats(changes[name], aoi, scale)];
      remaining := remaining - {name};
    }
  }

  /** The four stages of `analyze`, with the progress reported between them. */
  method RunAnalysis(registry: IndexBase.IndexRegistry, aoi: Aoi, periods: seq<string>, indices: seq<string>,
                     reference: string, cloudThreshold: real, scale: int, withCallback: bool)
    returns (r: Result<Analysis>, events: seq<ProgressEvent>)
    ensures var spec := AnalyzeSpec(registry.table, registry.names, aoi, periods, indices, reference, cloudThreshold, scale);
            r == spec.0 && events == (if withCallback then AnalyzeEvents[..spec.1] else [])
  {
    events := UpdateProgress([], withCallback, 0);
    events := UpdateProgress(events, withCallback, 1);
    var composites := Temporal.CreateAllPeriodComposites(aoi, Some(periods), cloudThreshold);
    if composites.Err? {
      return Err(composites.error), events;
    }
    r, events := RunIndexStage(registry, aoi, composites.value, indices, reference, scale, withCallback, events);
  }

  /** `analyze` from the index stage on. */
  method RunIndexStage(registry: IndexBase.IndexRegistry, aoi: Aoi, composites: map<string, Image>, indices: seq<string>,
                       reference: string, scale: int, withCallback: bool, events0: seq<ProgressEvent>)
    returns (r: Result<Analysis>, events: seq<ProgressEvent>)
    requires events0 == (if withCallback then AnalyzeEvents[..2] else [])
    ensures var spec := IndexStage(registry.table, registry.names, aoi, composites, indices, reference, scale);
            r == spec.0 && events == (if withCallback then AnalyzeEvents[..spec.1] else [])
  {
    events := UpdateProgress(events0, withCallback, 2);
    events := UpdateProgress(events, withCallback, 3);
    var indexed := IndexComposites(registry, composites, indices);
    if indexed.Err? {
      return Err(indexed.error), events;
    }
    r, events := RunChangeStage(aoi, indexed.value, indices, reference, scale, withCallback, events);
  }

  /** `analyze` from the change stage on. */
  method RunChangeStage(aoi: Aoi, indexed: map<string, Image>, indices: seq<string>, reference: string, scale: int,
                        withCallback: bool, events0: seq<ProgressEvent>)
    returns (r: Result<Analysis>, events: seq<ProgressEvent>)
    requires events0 == (if withCallback then AnalyzeEvents[..4] else [])
    ensures var spec := ChangeStage(aoi, indexed, indices, reference, scale);
            r == spec.0 && events == (if withCallback then AnalyzeEvents[..spec.1] else [])
  {
    events := UpdateProgress(events0, withCallback, 4);
    events := UpdateProgress(events, withCallback, 5);
    var changes := Detection.CreateChangeAnalysis(indexed, Some(indices), reference);
    if changes.Err? {
      return Err(changes.error), events;
    }
    events := UpdateProgress(events, withCallback, 6);
    events := UpdateProgress(events, withCallback, 7);
    var statistics := GenerateStatistics(changes.value, aoi, scale);
    events := UpdateProgress(events, withCallback, 8);
    r := Ok(Analysis(indexed, changes.value, statistics));
  }

  // ---------------------------------------------------------------------------
  // `analyze_from_file`
  // ---------------------------------------------------------------------------

  /** What loading the area-of-interest file, measuring it, buffering it and converting it to an engine
      geometry yields: the geometry, the centroid of the unbuffered area and its area in hectares. */
  datatype PreparedAoi = PreparedAoi(aoi: Aoi, centroidLon: real, centroidLat: real, areaHa: real)

  /** `analyze_from_file`'s results: the analysis plus the area's centroid and area. */
  datatype FileAnalysis = FileAnalysis(analysis: Analysis, centroidLon: real, centroidLat: real, areaHa: real)

  const LoadingEvent: ProgressEvent := ProgressEvent(0.0, "Loading area of interest")
  const PreparedEvent: ProgressEvent := ProgressEvent(0.05, "AOI prepared")
  const ExportEvent: ProgressEvent := ProgressEvent(0.92, "Starting exports")
  const CompleteEvent: ProgressEvent := ProgressEvent(1.0, "Complete")

  /** `analysis_callback`: the analysis's progress mapped into the range 5 % to 90 %. */
  function Scaled(e: ProgressEvent): ProgressEvent {
    ProgressEvent(0.05 + e.progress * 0.85, e.step)
  }

  function ScaledAll(events: seq<ProgressEvent>): (r: seq<ProgressEvent>)
    ensures |r| == |events| && forall i :: 0 <= i < |events| ==> r[i] == Scaled(events[i])
  {
    seq(|events|, i requires 0 <= i < |events| => Scaled(events[i]))
  }

  /** Python's `xs or default`: an absent or empty list falls back to the default. */
  function OrDefault(xs: Option<seq<string>>, default: seq<string>): seq<string> {
    if xs.None? || xs.value == [] then default else xs.value
  }

  /** What `analyze_from_file` returns or raises, with every progress report it makes: loading first,
      then the analysis's own reports rescaled, then the export and completion reports. */
  function FileSpec(table: map<string, IndexBase.SpectralIndex>, names: seq<string>, prepared: Result<PreparedAoi>,
                    periods: seq<string>, indices: seq<string>, reference: string, cloudThreshold: real, scale: int,
                    doExport: bool): (Result<FileAnalysis>, seq<ProgressEvent>)
  {
    match prepared
    case Err(e) => (Err(e), [LoadingEvent])
    case Ok(p) =>
      var spec := AnalyzeSpec(table, names, p.aoi, periods, indices, reference, cloudThreshold, scale);
      PreparedOutcome(p, spec.0, spec.1, doExport)
  }

  /** What `analyze_from_file` returns and reports once the area is prepared, given the outcome of `analyze`
      and the number of reports it made. */
  function PreparedOutcome(p: PreparedAoi, analysis: Result<Analysis>, n: nat, doExport: bool)
    : (Result<FileAnalysis>, seq<ProgressEvent>)
    requires n <= |AnalyzeEvents|
  {
    var reported := [LoadingEvent, PreparedEvent] + ScaledAll(AnalyzeEvents[..n]);
    match analysis
    case Err(e) => (Err(e), reported)
    case Ok(a) => (Ok(FileAnalysis(a, p.centroidLon, p.centroidLat, p.areaHa)),
                   reported + (if doExport then [ExportEvent] else []) + [CompleteEvent])
  }

  /** Rescaling keeps the order of the reports. */
  lemma {:induction false} ScaledNonDecreasing(events: seq<ProgressEvent>)
    requires NonDecreasing(events)
    ensures NonDecreasing(ScaledAll(events))
  {
    var r := ScaledAll(events);
    forall i, j | 0 <= i < j < |r|
      ensures r[i].progress <= r[j].progress
    {
      assert events[i].progress <= events[j].progress;
      assert events[i].progress * 0.85 <= events[j].progress * 0.85;
    }
  }

  /** The file workflow's reports never go backwards, start at 0 and, on success, end at 1; but they do
      not strictly increase: "AOI prepared" and the analysis's first report are both at 5 %. */
  lemma {:induction false} FileEventsNonDecreasing(table: map<string, IndexBase.SpectralIndex>, names: seq<string>,
                                                   prepared: Result<PreparedAoi>, periods: seq<string>, indices: seq<string>,
                                                   reference: string, cloudThreshold: real, scale: int, doExport: bool)
    ensures var (r, events) := FileSpec(table, names, prepared, periods, indices, reference, cloudThreshold, scale, doExport);
            NonDecreasing(events) && |events| >= 1 && events[0] == LoadingEvent
            && (r.Ok? ==> events[|events| - 1] == CompleteEvent)
            && (prepared.Ok? ==> |events| >= 3 && events[1].progress == events[2].progress == 0.05)
  {
    if prepared.Ok? {
      var spec := AnalyzeSpec(table, names, prepared.value.aoi, periods, indices, reference, cloudThreshold, scale);
      PreparedEvents(prepared.value, spec.0, spec.1, doExport);
    }
  }

  /** Once the area is prepared: loading, 5 %, the rescaled analysis reports, then (on success) the export and
      completion reports, never going backwards. */
  lemma {:induction false} PreparedEvents(p: PreparedAoi, analysis: Result<Analysis>, n: nat, doExport: bool)
    requires 1 <= n <= |AnalyzeEvents|
    ensures var (r, events) := PreparedOutcome(p, analysis, n, doExport);
            NonDecreasing(events) && events[0] == LoadingEvent && (r.Ok? ==> events[|events| - 1] == CompleteEvent)
            && |events| >= 3 && events[1].progress == events[2].progress == 0.05
  {
    var scaled := ScaledAll(AnalyzeEvents[..n]);
    ScaledAnalyzeEvents(n);
    ReportedNonDecreasing(scaled, doExport);
    var reported := [LoadingEvent, PreparedEvent] + scaled;
    assert reported[1] == PreparedEvent && reported[2] == scaled[0];
    var all := reported + (if doExport then [ExportEvent] else []) + [CompleteEvent];
    assert all[1] == PreparedEvent && all[2] == scaled[0];
    assert all[|all| - 1] == CompleteEvent;
  }

  /** The analysis's first n reports, rescaled, run from 5 % to at most 90 % without going backwards. */
  lemma {:induction false} ScaledAnalyzeEvents(n: nat)
    requires 1 <= n <= |AnalyzeEvents|
    ensures var scaled := ScaledAll(AnalyzeEvents[..n]);
            NonDecreasing(scaled) && |scaled| == n && scaled[0].progress == 0.05 && scaled[n - 1].progress <= 0.90
  {
    var inner := AnalyzeEvents[..n];
    AnalyzeEventsIncrease();
    assert NonDecreasing(inner);
    ScaledNonDecreasing(inner);
    assert inner[n - 1].progress <= 1.0;
  }

  /** The reports around a rescaled run that starts at 5 % and ends at most at 90 %. */
  lemma ReportedNonDecreasing(scaled: seq<ProgressEvent>, doExport: bool)
    requires NonDecreasing(scaled) && |scaled| >= 1 && scaled[0].progress == 0.05 && scaled[|scaled| - 1].progress <= 0.90
    ensures var reported := [LoadingEvent, PreparedEvent] + scaled;
            NonDecreasing(reported)
            && NonDecreasing(reported + (if doExport then [ExportEvent] else []) + [CompleteEvent])
  {
    var reported := [LoadingEvent, PreparedEvent] + scaled;
    AppendNonDecreasing([LoadingEvent, PreparedEvent], scaled);
    var tail := (if doExport then [ExportEvent] else []) + [CompleteEvent];
    assert NonDecreasing(tail);
    assert reported[|reported| - 1].progress <= tail[0].progress;
    AppendNonDecreasing(reported, tail);
    assert reported + (if doExport then [ExportEvent] else []) + [CompleteEvent] == reported + tail;
  }

  /** Two non-decreasing runs joined where the first ends no higher than the second starts. */
  lemma AppendNonDecreasing(a: seq<ProgressEvent>, b: seq<ProgressEvent>)
    requires NonDecreasing(a) && NonDecreasing(b)
    requires a != [] && b != [] ==> a[|a| - 1].progress <= b[0].progress
    ensures NonDecreasing(a + b)
  {
    var c := a + b;
    forall i, j | 0 <= i < j < |c|
      ensures c[i].progress <= c[j].progress
    {
      if i < |a| && j >= |a| {
        assert c[i].progress <= a[|a| - 1].progress;
        assert b[0].progress <= c[j].progress;
      }
    }
  }

  /** The file workflow succeeds exactly when the file loads and the analysis succeeds, and then carries
      the analysis unchanged next to the area's measurements. */
  lemma FileOutcome(table: map<string, IndexBase.SpectralIndex>, names: seq<string>, prepared: Result<PreparedAoi>,
                    periods: seq<string>, indices: seq<string>, reference: string, cloudThreshold: real, scale: int,
                    doExport: bool)
    ensures var r := FileSpec(table, names, prepared, periods, indices, reference, cloudThreshold, scale, doExport).0;
            (r.Ok? <==> prepared.Ok? && AnalyzeSpec(table, names, prepared.value.aoi, periods, indices, reference,
                                                     cloudThreshold, scale).0.Ok?)
            && (r.Ok? ==> r.value.analysis == AnalyzeSpec(table, names, prepared.value.aoi, periods, indices, reference,
                                                          cloudThreshold, scale).0.value
                          && r.value.areaHa == prepared.value.areaHa)
            && (prepared.Err? ==> r == Err(prepared.error))
  {
  }

  // ---------------------------------------------------------------------------
  // `preview` and `get_period_summary`
  // ---------------------------------------------------------------------------

  /** What `preview` returns or raises: the period's fused composite at the default 20 % cloud limit,
      with the one index band added. `TEMPORAL_PERIODS[period]` raises KeyError for an unknown period. */
  function PreviewSpec(table: map<string, IndexBase.SpectralIndex>, names: seq<string>, loaded: Result<Aoi>,
                       period: string, index: string): Result<Image>
  {
    match loaded
    case Err(e) => Err(e)
    case Ok(aoi) =>
      if period !in Config.TemporalPeriods() then Err(KeyError("'" + period + "'"))
      else
        var info := Config.TemporalPeriods()[period];
        match Temporal.FusedComposite(aoi, info.start, info.end, info.sensors, 20.0)
        case Err(e) => Err(e)
        case Ok(c) => IndexConvenience.AddAll(table, names, c, [index])
  }

  /** A preview exists exactly when the file loads, the period is known and the index registered; it has
      the six harmonized bands and the index band. */
  lemma {:induction false} PreviewOutcome(table: map<string, IndexBase.SpectralIndex>, names: seq<string>,
                                          loaded: Result<Aoi>, period: string, index: string)
    ensures var r := PreviewSpec(table, names, loaded, period, index);
            (r.Ok? <==> loaded.Ok? && period in Config.TemporalPeriods() && index in table)
            && (r.Ok? ==> Bands(r.value) == HarmonizedBands + [table[index].name])
            && (loaded.Err? ==> r == Err(loaded.error))
            && (loaded.Ok? && period !in Config.TemporalPeriods() ==> r == Err(KeyError("'" + period + "'")))
            && (loaded.Ok? && period in Config.TemporalPeriods() && index !in table ==>
                  r == Err(IndexConvenience.UnknownIndex(index, names)))
  {
    if loaded.Ok? && period in Config.TemporalPeriods() {
      assert Config.GetPeriodInfo(period).Ok?;
      Config.PeriodHasSensors(period);
      var info := Config.TemporalPeriods()[period];
      var c := Temporal.FusedComposite(loaded.value, info.start, info.end, info.sensors, 20.0);
      assert c.Ok?;
      assert [index][..0] == [];
      assert IndexConvenience.AddAll(table, names, c.value, [index])
          == IndexConvenience.AddIndex(table, names, c.value, index);
    }
  }

  /** `get_period_summary` on a list: the known periods' table entries; unknown names are skipped. */
  function PeriodSummary(periods: seq<string>): map<string, Config.PeriodInfo> {
    SummaryOf(Config.TemporalPeriods(), periods)
  }

  function SummaryOf(table: map<string, Config.PeriodInfo>, periods: seq<string>): map<string, Config.PeriodInfo> {
    map p | p in periods && p in table :: table[p]
  }

  /** `get_period_summary`: with no list, every period. */
  method GetPeriodSummary(periods: Option<seq<string>>) returns (summary: map<string, Config.PeriodInfo>)
    ensures summary == PeriodSummary(if periods.Some? then periods.value else Config.PeriodNames())
    ensures forall p :: p in summary ==> p in Config.TemporalPeriods() && summary[p] == Config.TemporalPeriods()[p]
  {
    var names := if periods.Some? then periods.value else Config.PeriodNames();
    var table := Config.TemporalPeriods();
    summary := Summarize(table, names);
  }

  /** The loop of `get_period_summary` over one period table. */
  method Summarize(table: map<string, Config.PeriodInfo>, names: seq<string>) returns (summary: map<string, Config.PeriodInfo>)
    ensures summary == SummaryOf(table, names)
  {
    summary := map[];
    for i := 0 to |names|
      invariant summary == SummaryOf(table, names[..i])
    {
      assert forall p :: p in names[..i + 1] <==> p in names[..i] || p == names[i];
      if names[i] in table {
        summary := summary[names[i] := table[names[i]]];
      }
    }
    assert names[..|names|] == names;
  }

  /** Without a list the summary is the whole period table, and names not in the table never appear. */
  lemma {:induction false} FullSummary(periods: seq<string>)
    ensures PeriodSummary(Config.PeriodNames()) == Config.TemporalPeriods()
    ensures PeriodSummary(periods).Keys <= Config.TemporalPeriods().Keys
    ensures forall p :: p in periods && p in Config.TemporalPeriods() ==> p in PeriodSummary(periods)
  {
    var full := PeriodSummary(Config.PeriodNames());
    assert full.Keys == Config.TemporalPeriods().Keys;
  }

  // ---------------------------------------------------------------------------
  // Job runs
  // ---------------------------------------------------------------------------

  /** How a run ends: the serializable results stored, or the exception recorded and re-raised. */
  datatype RunOutcome = Succeeded(results: map<string, Jobs.ResultValue>) | Raised(error: Error)

  /** The first update: running since `t`. */
  function Started(j: Jobs.Job, t: int): Jobs.Job {
    j.(status := Jobs.Running, startedAt := Some(t))
  }

  /** The progress callback's updates, all applied: the job shows the last report, if any. */
  function Progressed(j: Jobs.Job, events: seq<ProgressEvent>): Jobs.Job {
    if events == [] then j
    else j.(progress := events[|events| - 1].progress, currentStep := events[|events| - 1].step)
  }

  /** The last update: completed with the results, or failed with the message; a failure keeps the
      progress and the results the job already had. */
  function Finished(j: Jobs.Job, outcome: RunOutcome, t: int): Jobs.Job {
    match outcome
    case Succeeded(results) =>
      j.(status := Jobs.Completed, completedAt := Some(t), progress := 1.0, currentStep := "Complete",
         results := Some(results))
    case Raised(e) => j.(status := Jobs.Failed, completedAt := Some(t), error := Some(Message(e)))
  }

  /** The job after a whole run. */
  function AfterRun(j: Jobs.Job, started: int, events: seq<ProgressEvent>, outcome: RunOutcome, finished: int): Jobs.Job {
    Finished(Progressed(Started(j, started), events), outcome, finished)
  }

  /** `run_job`'s stored results. The configuration class has no `to_dict`, so "config" is None. */
  function JobOutcome(r: Result<Analysis>): RunOutcome {
    match r
    case Ok(a) => Succeeded(map["statistics" := Jobs.Statistics(a.statistics), "config" := Jobs.NoneValue])
    case Err(e) => Raised(e)
  }

  /** `run_job_from_file`'s stored results. */
  function FileJobOutcome(r: Result<FileAnalysis>): RunOutcome {
    match r
    case Ok(f) =>
      Succeeded(map["statistics" := Jobs.Statistics(f.analysis.statistics),
                    "aoi_centroid" := Jobs.Centroid(f.centroidLon, f.centroidLat),
                    "aoi_area_ha" := Jobs.AreaHectares(f.areaHa)])
    case Err(e) => Raised(e)
  }

  /** The analysis a job runs: its own configuration's periods, indices, cloud limit and scale. */
  function ConfiguredAnalysis(table: map<string, IndexBase.SpectralIndex>, names: seq<string>, aoi: Aoi,
                              config: Config.VegChangeConfig, reference: string): (Result<Analysis>, nat)
    reads config
  {
    AnalyzeSpec(table, names, aoi, config.periods, config.indices, reference, config.cloudThreshold, config.exportScale)
  }

  /** The file analysis a job runs, under its own configuration. */
  function ConfiguredFileAnalysis(table: map<string, IndexBase.SpectralIndex>, names: seq<string>,
                                  prepared: Result<PreparedAoi>, config: Config.VegChangeConfig, reference: string,
                                  doExport: bool): (Result<FileAnalysis>, seq<ProgressEvent>)
    reads config
  {
    FileSpec(table, names, prepared, config.periods, config.indices, reference, config.cloudThreshold,
             config.exportScale, doExport)
  }

  /** A successful run ends completed at full progress with its results, started and completed at the
      clock readings given; an error message left by an earlier run is not cleared. */
  lemma RunSucceeded(j: Jobs.Job, started: int, events: seq<ProgressEvent>, results: map<string, Jobs.ResultValue>,
                     finished: int)
    ensures var a := AfterRun(j, started, events, Succeeded(results), finished);
            a.status == Jobs.Completed && a.progress == 1.0 && a.currentStep == "Complete"
            && a.results == Some(results) && a.error == j.error
            && a.startedAt == Some(started) && a.completedAt == Some(finished)
            && a.jobId == j.jobId && a.config == j.config && a.createdAt == j.createdAt
  {
  }

  /** A failed analysis leaves the job failed with the exception's message, showing the report of the
      stage that raised (5 %, 45 % or 65 %, never complete) and the results of any earlier run. */
  lemma {:induction false} RunFailed(table: map<string, IndexBase.SpectralIndex>, names: seq<string>, aoi: Aoi,
                                     config: Config.VegChangeConfig, reference: string, j: Jobs.Job,
                                     started: int, finished: int)
    requires ConfiguredAnalysis(table, names, aoi, config, reference).0.Err?
    ensures var spec := ConfiguredAnalysis(table, names, aoi, config, reference);
            var a := AfterRun(j, started, AnalyzeEvents[..spec.1], JobOutcome(spec.0), finished);
            a.status == Jobs.Failed && a.error == Some(Message(spec.0.error)) && a.results == j.results
            && a.completedAt == Some(finished)
            && (a.progress == 0.05 || a.progress == 0.45 || a.progress == 0.65)
            && a.currentStep != "Complete"
  {
    var spec := ConfiguredAnalysis(table, names, aoi, config, reference);
    assert spec.1 == 2 || spec.1 == 4 || spec.1 == 6;
  }

  /** The status a job had when the run began plays no part: a cancelled or finished job is run again. */
  lemma RunIgnoresStatus(j: Jobs.Job, s: Jobs.Status, started: int, events: seq<ProgressEvent>, outcome: RunOutcome,
                         finished: int)
    ensures AfterRun(j.(status := s), started, events, outcome, finished) == AfterRun(j, started, events, outcome, finished)
  {
  }

  // ---------------------------------------------------------------------------
  // The orchestrator
  // ---------------------------------------------------------------------------

  /** `ChangeOrchestrator`. The index registry and the default configuration are the module-level
      objects the source reads; they are fields here so their current contents are explicit. */
  class ChangeOrchestrator {
    const jobStore: Jobs.JobStore
    const registry: IndexBase.IndexRegistry
    const defaultConfig: Config.VegChangeConfig

    /** `job_store or JobStore()`: the given store, or a new one holding up to 100 jobs. */
    constructor(jobStore: Option<Jobs.JobStore>, registry: IndexBase.IndexRegistry,
                defaultConfig: Config.VegChangeConfig)
      ensures jobStore.Some? ==> this.jobStore == jobStore.value
      ensures jobStore.None? ==> fresh(this.jobStore) && this.jobStore.Valid() && this.jobStore.jobs == map[]
                                 && this.jobStore.maxJobs == 100
      ensures this.registry == registry && this.defaultConfig == defaultConfig
    {
      if jobStore.Some? {
        this.jobStore := jobStore.value;
      } else {
        this.jobStore := new Jobs.JobStore();
      }
      this.registry := registry;
      this.defaultConfig := defaultConfig;
    }

    /** `analyze`: an absent configuration means the default one, absent periods or indices mean the
        configuration's; `used` is the configuration returned under "config". */
    method Analyze(aoi: Aoi, periods: Option<seq<string>> := None, indices: Option<seq<string>> := None,
                   reference: string := "1990s", config: Option<Config.VegChangeConfig> := None,
                   withCallback: bool := false)
      returns (r: Result<Analysis>, events: seq<ProgressEvent>, used: Config.VegChangeConfig)
      ensures used == (if config.Some? then config.value else defaultConfig)
      ensures var spec := AnalyzeSpec(registry.table, registry.names, aoi,
                                      if periods.Some? then periods.value else used.periods,
                                      if indices.Some? then indices.value else used.indices,
                                      reference, used.cloudThreshold, used.exportScale);
              r == spec.0 && events == (if withCallback then AnalyzeEvents[..spec.1] else [])
    {
      used := if config.Some? then config.value else defaultConfig;
      var ps := if periods.Some? then periods.value else used.periods;
      var idx := if indices.Some? then indices.value else used.indices;
      r, events := RunAnalysis(registry, aoi, ps, idx, reference, used.cloudThreshold, used.exportScale, withCallback);
    }

    /** `analyze_from_file`. Without a configuration a new one is made from the arguments, where an empty
        list falls back to the default; with one, its periods and indices win over the arguments. */
    method AnalyzeFromFile(prepared: Result<PreparedAoi>, siteName: string := "Analysis Site",
                           periods: Option<seq<string>> := None, indices: Option<seq<string>> := None,
                           reference: string := "1990s", bufferDistance: real := 500.0, doExport: bool := false,
                           exportFolder: string := "VegChangeAnalysis",
                           config: Option<Config.VegChangeConfig> := None, withCallback: bool := false)
      returns (r: Result<FileAnalysis>, events: seq<ProgressEvent>, used: Config.VegChangeConfig)
      ensures config.Some? ==> used == config.value
      ensures config.None? ==> fresh(used) && used.siteName == siteName && used.bufferDistance == bufferDistance
                               && used.periods == OrDefault(periods, Config.DefaultPeriods)
                               && used.indices == OrDefault(indices, Config.DefaultIndices)
                               && used.driveFolder == exportFolder
                               && used.cloudThreshold == 20.0 && used.exportScale == 30
      ensures var spec := FileSpec(registry.table, registry.names, prepared, used.periods, used.indices, reference,
                                   used.cloudThreshold, used.exportScale, doExport);
              r == spec.0 && events == (if withCallback then spec.1 else [])
    {
      used := FileConfig(siteName, periods, indices, bufferDistance, exportFolder, config);
      var reported;
      r, reported := RunFileAnalysis(prepared, used, reference, doExport);
      events := if withCallback then reported else [];
    }

    /** The configuration `analyze_from_file` works under. */
    static method FileConfig(siteName: string, periods: Option<seq<string>>, indices: Option<seq<string>>,
                             bufferDistance: real, exportFolder: string, config: Option<Config.VegChangeConfig>)
      returns (used: Config.VegChangeConfig)
      ensures config.Some? ==> used == config.value
      ensures config.None? ==> fresh(used) && used.siteName == siteName && used.bufferDistance == bufferDistance
                               && used.periods == OrDefault(periods, Config.DefaultPeriods)
                               && used.indices == OrDefault(indices, Config.DefaultIndices)
                               && used.driveFolder == exportFolder
                               && used.cloudThreshold == 20.0 && used.exportScale == 30
    {
      if config.Some? {
        used := config.value;
      } else {
        used := new Config.VegChangeConfig(siteName := siteName, periods := OrDefault(periods, Config.DefaultPeriods),
                                           indices := OrDefault(indices, Config.DefaultIndices),
                                           bufferDistance := bufferDistance, driveFolder := exportFolder);
      }
    }

    /** The body of `analyze_from_file` once its configuration is chosen, with every report it makes. */
    method RunFileAnalysis(prepared: Result<PreparedAoi>, used: Config.VegChangeConfig, reference: string,
                           doExport: bool)
      returns (r: Result<FileAnalysis>, reported: seq<ProgressEvent>)
      ensures (r, reported) == FileSpec(registry.table, registry.names, prepared, used.periods, used.indices, reference,
                                        used.cloudThreshold, used.exportScale, doExport)
    {
      reported := [LoadingEvent];
      if prepared.Err? {
        return Err(prepared.error), reported;
      }
      var p := prepared.value;
      reported := reported + [PreparedEvent];
      assert reported == [LoadingEvent, PreparedEvent];
      var a, inner, _ := Analyze(p.aoi, Some(used.periods), Some(used.indices), reference, Some(used), true);
      reported := reported + ScaledAll(inner);
      if a.Err? {
        return Err(a.error), reported;
      }
      reported := reported + (if doExport then [ExportEvent] else []) + [CompleteEvent];
      r := Ok(FileAnalysis(a.value, p.centroidLon, p.centroidLat, p.areaHa));
    }

    /** `preview`: `loaded` is the geometry read from the file. */
    method Preview(loaded: Result<Aoi>, period: string := "present", index: string := "ndvi") returns (r: Result<Image>)
      ensures r == PreviewSpec(registry.table, registry.names, loaded, period, index)
    {
      if loaded.Err? {
        return Err(loaded.error);
      }
      if period !in Config.TemporalPeriods() {
        return Err(KeyError("'" + period + "'"));
      }
      var info := Config.TemporalPeriods()[period];
      var composite := Temporal.CreateFusedComposite(loaded.value, info.start, info.end, info.sensors);
      if composite.Err? {
        return Err(composite.error);
      }
      r := IndexConvenience.AddAllIndices(registry, composite.value, Some([index]));
    }

    /** `create_job`: the store's `create`, returning the new job's id. */
    method CreateJob(config: Config.VegChangeConfig, uuid: string, now: int) returns (jobId: string)
      requires jobStore.Valid() && |uuid| >= 8
      modifies jobStore
      ensures jobStore.Valid()
      ensures jobId == uuid[..8] && jobId in jobStore.jobs && jobStore.jobs[jobId] == Jobs.NewJob(jobId, config, now)
      ensures (jobStore.order, jobStore.jobs)
              == Jobs.Inserted(Jobs.Evicted(old(jobStore.order), old(jobStore.jobs), jobStore.maxJobs),
                               Jobs.NewJob(jobId, config, now))
    {
      var job := jobStore.Create(config, uuid, now);
      jobId := job.jobId;
    }

    /** `get_job` */
    function GetJob(jobId: string): (r: Option<Jobs.Job>)
      reads jobStore
      ensures r.Some? <==> jobId in jobStore.jobs
      ensures r.Some? ==> r.value == jobStore.jobs[jobId]
    {
      jobStore.Get(jobId)
    }

    /** `list_jobs`: the store's listing. */
    function ListJobs(status: Option<Jobs.Status> := None, limit: int := 50): (r: seq<Jobs.Job>)
      reads jobStore
      requires jobStore.Valid()
      ensures status.Some? ==> forall j :: j in r ==> j.status == status.value
      ensures forall i, k :: 0 <= i < k < |r| ==> r[i].createdAt >= r[k].createdAt
      ensures forall j :: j in r ==> exists k :: k in jobStore.jobs && jobStore.jobs[k] == j
      ensures r == Jobs.ListSpec(Jobs.ValuesOf(jobStore.order, jobStore.jobs), status, limit)
    {
      jobStore.ListJobs(status, limit)
    }

    /** `update(job_id, status=RUNNING, started_at=...)` */
    method RecordStart(jobId: string, t: int)
      requires jobStore.Valid() && jobId in jobStore.jobs
      modifies jobStore
      ensures jobStore.Valid() && jobStore.order == old(jobStore.order)
      ensures jobStore.jobs == old(jobStore.jobs)[jobId := Started(old(jobStore.jobs)[jobId], t)]
    {
      var updates := [Jobs.SetStatus(Jobs.Running), Jobs.SetStartedAt(Some(t))];
      Jobs.ApplyTwo(jobStore.jobs[jobId], updates[0], updates[1]);
      var updated := jobStore.Update(jobId, updates);
    }

    /** The progress callback of a job run: `update(job_id, progress=..., current_step=...)` per report. */
    method ReportAll(jobId: string, events: seq<ProgressEvent>)
      requires jobStore.Valid() && jobId in jobStore.jobs
      modifies jobStore
      ensures jobStore.Valid() && jobStore.order == old(jobStore.order)
      ensures jobStore.jobs == old(jobStore.jobs)[jobId := Progressed(old(jobStore.jobs)[jobId], events)]
    {
      ghost var start := jobStore.jobs[jobId];
      for i := 0 to |events|
        invariant jobStore.Valid() && jobStore.order == old(jobStore.order)
        invariant jobStore.jobs == old(jobStore.jobs)[jobId := Progressed(start, events[..i])]
      {
        var updates := [Jobs.SetProgress(events[i].progress), Jobs.SetCurrentStep(events[i].step)];
        Jobs.ApplyTwo(jobStore.jobs[jobId], updates[0], updates[1]);
        var updated := jobStore.Update(jobId, updates);
        assert events[..i + 1][i] == events[i];
      }
      assert events[..|events|] == events;
    }

    /** The final update of a run: completed with its results, or failed with the message. */
    method RecordEnd(jobId: string, outcome: RunOutcome, t: int)
      requires jobStore.Valid() && jobId in jobStore.jobs
      modifies jobStore
      ensures jobStore.Valid() && jobStore.order == old(jobStore.order)
      ensures jobStore.jobs == old(jobStore.jobs)[jobId := Finished(old(jobStore.jobs)[jobId], outcome, t)]
    {
      var j := jobStore.jobs[jobId];
      match outcome
      case Succeeded(results) =>
        var updates := [Jobs.SetStatus(Jobs.Completed), Jobs.SetCompletedAt(Some(t)), Jobs.SetProgress(1.0),
                        Jobs.SetCurrentStep("Complete"), Jobs.SetResults(Some(results))];
        Jobs.ApplyFive(j, updates[0], updates[1], updates[2], updates[3], updates[4]);
        var updated := jobStore.Update(jobId, updates);
      case Raised(e) =>
        var updates := [Jobs.SetStatus(Jobs.Failed), Jobs.SetCompletedAt(Some(t)), Jobs.SetError(Some(Message(e)))];
        Jobs.ApplyThree(j, updates[0], updates[1], updates[2]);
        var updated := jobStore.Update(jobId, updates);
    }

    /** Start, report, finish: the store updates of one run whose analysis produced `events` and `outcome`. */
    method RecordRun(jobId: string, started: int, events: seq<ProgressEvent>, outcome: RunOutcome, finished: int)
      requires jobStore.Valid() && jobId in jobStore.jobs
      modifies jobStore
      ensures jobStore.Valid() && jobStore.order == old(jobStore.order)
      ensures jobStore.jobs == old(jobStore.jobs)[jobId := AfterRun(old(jobStore.jobs)[jobId], started, events, outcome, finished)]
    {
      RecordStart(jobId, started);
      ReportAll(jobId, events);
      RecordEnd(jobId, outcome, finished);
    }

    /** `run_job`. A missing id does nothing. Otherwise the job runs under its own configuration, its
        progress follows the analysis's reports, and it ends completed or failed; on failure the
        exception is also returned, as the source re-raises it. */
    method RunJob(jobId: string, aoi: Aoi, started: int, finished: int, reference: string := "1990s")
      returns (raised: Option<Error>)
      requires jobStore.Valid()
      modifies jobStore
      ensures jobStore.Valid() && jobStore.order == old(jobStore.order)
      ensures jobId !in old(jobStore.jobs) ==> raised == None && jobStore.jobs == old(jobStore.jobs)
      ensures jobId in old(jobStore.jobs) ==>
                var job := old(jobStore.jobs)[jobId];
                var spec := ConfiguredAnalysis(registry.table, registry.names, aoi, job.config, reference);
                jobStore.jobs == old(jobStore.jobs)[jobId := AfterRun(job, started, AnalyzeEvents[..spec.1],
                                                                      JobOutcome(spec.0), finished)]
                && raised == (if spec.0.Ok? then None else Some(spec.0.error))
    {
      var job := jobStore.Get(jobId);
      if job.None? {
        return None;
      }
      var config := job.value.config;
      var r, events, _ := Analyze(aoi, Some(config.periods), Some(config.indices), reference, Some(config), true);
      RecordRun(jobId, started, events, JobOutcome(r), finished);
      raised := if r.Ok? then None else Some(r.error);
    }

    /** `run_job_from_file`: as `run_job`, over the file workflow and its rescaled reports; the results
        keep the statistics, the centroid and the area. */
    method RunJobFromFile(jobId: string, prepared: Result<PreparedAoi>, started: int, finished: int,
                          reference: string := "1990s", doExport: bool := false)
      returns (raised: Option<Error>)
      requires jobStore.Valid()
      modifies jobStore
      ensures jobStore.Valid() && jobStore.order == old(jobStore.order)
      ensures jobId !in old(jobStore.jobs) ==> raised == None && jobStore.jobs == old(jobStore.jobs)
      ensures jobId in old(jobStore.jobs) ==>
                var job := old(jobStore.jobs)[jobId];
                var spec := ConfiguredFileAnalysis(registry.table, registry.names, prepared, job.config, reference, doExport);
                jobStore.jobs == old(jobStore.jobs)[jobId := AfterRun(job, started, spec.1, FileJobOutcome(spec.0), finished)]
                && raised == (if spec.0.Ok? then None else Some(spec.0.error))
    {
      var job := jobStore.Get(jobId);
      if job.None? {
        return None;
      }
      var config := job.value.config;
      var r, events, _ := AnalyzeFromFile(prepared, config.siteName, Some(config.periods), Some(config.indices),
                                          reference, 500.0, doExport, config.driveFolder, Some(config), true);
      RecordRun(jobId, started, events, FileJobOutcome(r), finished);
      raised := if r.Ok? then None else Some(r.error);
    }

    /** `cancel_job`: only a pending job is cancelled. */
    method CancelJob(jobId: string, now: int) returns (cancelled: bool)
      requires jobStore.Valid()
      modifies jobStore
      ensures jobStore.Valid() && jobStore.order == old(jobStore.order)
      ensures cancelled <==> jobId in old(jobStore.jobs) && old(jobStore.jobs)[jobId].status == Jobs.Pending
      ensures cancelled ==> jobStore.jobs == old(jobStore.jobs)[jobId := old(jobStore.jobs)[jobId].(
                status := Jobs.Cancelled, completedAt := Some(now))]
      ensures !cancelled ==> jobStore.jobs == old(jobStore.jobs)
    {
      var job := jobStore.Get(jobId);
      if job.Some? && job.value.status == Jobs.Pending {
        var updates := [Jobs.SetStatus(Jobs.Cancelled), Jobs.SetCompletedAt(Some(now))];
        Jobs.ApplyTwo(job.value, updates[0], updates[1]);
        var updated := jobStore.Update(jobId, updates);
        return true;
      }
      return false;
    }
  }

  /** A cancelled job is neither completed nor failed, so eviction never removes it. */
  lemma CancelledSurvivesEviction(order: seq<string>, jobs: map<string, Jobs.Job>, maxJobs: int, jobId: string)
    requires forall k :: k in order ==> k in jobs
    requires jobId in jobs && jobs[jobId].status == Jobs.Cancelled
    ensures jobId in Jobs.Evicted(order, jobs, maxJobs).1
  {
    Jobs.EvictionKeepsActive(order, jobs, maxJobs);
  }
}
