# Verdant vegetation-change core, modelled in Dafny

Verdant compares satellite imagery of an area across four fixed periods (1990s, 2000s, 2010s, present).
It builds a cloud-masked median composite per period from Landsat and Sentinel-2 collections, adds
spectral-index bands (NDVI, NBR, NDWI, EVI, NDMI), and subtracts each period's index from the reference
period's. It then classifies every pixel of the difference into five change classes, from strong loss to
strong gain, and summarises the classes. A job store and an orchestrator run these analyses as
background jobs that report their progress.

This project models the sequential logic around the remote Earth Engine calls:

- the configuration tables and their lookups (`config.dfy`);
- the per-pixel threshold classifier (`thresholds.dfy`), the change-analysis builders (`detection.dfy`),
  class information and summaries (`change_statistics.dfy`), and the legacy copy of the classifier
  (`legacy_change.dfy`);
- the QA-bit cloud masks (`cloud_masking.dfy`) and the period and sensor dispatch of the composites
  (`temporal.dfy`);
- the spectral-index registry and the band naming of indices, deltas and relative change
  (`index_base.dfy`, `index_convenience.dfy`);
- AOI loader selection, the KMZ inner-file choice, the KML reader fallback chain and the CRS default
  (`aoi_loaders.dfy`);
- visualisation parameters, palette interpolation, legends and the hex colour parse (`colors.dfy`);
- the API request validators and the bounding-box polygon of section 3.1.6 of RFC 7946 (`requests.dfy`);
- the AlphaEarth year range, metric dispatch and year pairing (`alphaearth.dfy`);
- the Earth Engine initializer's state machine (`ee_init.dfy`);
- the job records and the job store with its eviction (`jobs.dfy`);
- the orchestrator: the four-stage analysis and its progress reports, the file workflow, previews,
  period summaries and the job runs (`orchestrator.dfy`).

The older package keeps its own copies of the change and index code. In `veg_change_engine/core/change.py`, the
functions `from_config`, `classify_change`, `analyze_period_change`, `create_change_analysis`,
`create_sequential_change`, `get_class_info` and `summarize_change` repeat the engine's code with the same
branches and messages. In `veg_change_engine/core/indices.py`, `register_index`, `get_available_indices`,
`add_index`, `add_all_indices` and the delta and relative-change functions do the same. The members that
model the engine's functions therefore model these copies too. Only the copy's classifier
(`LegacyChange`) and its pre-filled registry (`IndexBase.LoadedRegistry`) have members of their own.

`common.dfy` holds the `Option`/`Result` types, the error values and small string helpers, and
`sorting.dfy` holds the stable insertion sort used for eviction order, job listing and sorted years.
`imagery.dfy` holds the symbolic images.

An image is the expression that builds it. The model decides which bands exist and what they are
called. For the operations the system composes itself (select, subtract, rename, add bands, classify),
it also decides the value each band holds at a pixel. Source images, median composites and index
formulas are opaque, and a caller-supplied sampling function gives their values. Reals stand for
floating-point numbers. Anything that depends on the outside world is a parameter:

- whether an engine call, a file read or a credential check fails, and with what error;
- the clock and the uuid;
- the loaded and measured area of interest.

Classes model the objects the source updates in place: the job store, the index registry, the loader
registry, the configuration and the initializer. Everything else is values and functions. The model
keeps these behaviours of the code, which a caller might not expect:

- `run_job` re-raises the exception after recording it;
- a cancelled job can be run again;
- eviction can leave the store above its capacity;
- the configuration is stored by reference;
- `analyze_from_file` uses the configuration's own periods and indices when one is given.

## Model

| member | source | states |
|---|---|---|
| Thresholds.FromConfig | engine/change/thresholds.py:29-40 | the lookup of "d" + name falls back to the dndvi row: "nbr" gets the dnbr row and every other name the dndvi row |
| Thresholds.Classify | engine/change/thresholds.py:67-96 | for any six thresholds whatsoever the class lies in 1..5 |
| Thresholds.LastMatchWins | engine/change/thresholds.py:79-94 | the class is that of the last matching overwrite in the order strong loss, moderate loss, moderate gain, strong gain, and 3 when none matches |
| Thresholds.UnorderedOverlap | engine/change/thresholds.py:15-27 | nothing validates the order: with inverted thresholds one value meets both the strong-loss and the strong-gain test and the later overwrite (5) wins |
| Thresholds.AtMostOneCondition | engine/change/thresholds.py:83-94 | with strong_loss < moderate_loss < moderate_gain < strong_gain at most one of the four tests holds |
| Thresholds.ClassifyMatchesBands | engine/change/thresholds.py:83-94 | with ordered thresholds the cascade equals the direct band lookup (≤ strong loss → 1, ≤ moderate loss → 2, < moderate gain → 3, < strong gain → 4, else 5) |
| Thresholds.StableIffBetween | engine/change/thresholds.py:83-94 | with ordered thresholds the class is 3 exactly when moderate_loss < d < moderate_gain |
| Thresholds.ClassifyMonotone | engine/change/thresholds.py:56-61 | with ordered thresholds d1 ≤ d2 implies class(d1) ≤ class(d2), the loss-to-gain order of the class list |
| Thresholds.StableBoundsIgnored | engine/change/thresholds.py:67-96 | stable_min and stable_max never influence the class |
| Thresholds.DndviBoundaries | engine/change/thresholds.py:83-94 | with the dndvi row: −0.20 and −0.15 → 1, −0.10 and −0.05 → 2, 0.0 → 3, 0.05 and 0.10 → 4, 0.15 → 5 |
| Thresholds.ConfiguredRowsOrdered | engine/change/thresholds.py:29-40 | every row `from_config` can return is ordered loss to gain |
| Config.TemporalPeriods | engine/config.py:18-43 | the period table has exactly the keys 1990s, 2000s, 2010s and present |
| Config.PeriodNames | engine/config.py:18-43 | `list(TEMPORAL_PERIODS.keys())`: four distinct names, exactly the table's keys |
| Config.WellFormedEntry | engine/config.py:18-43 | each period's start and end are ISO dates with start before end, and it names at least one sensor |
| Config.PeriodsWellFormed | engine/config.py:18-43 | every period in the table is well formed |
| Config.ConsecutiveEntries | engine/config.py:18-43 | 1990s ends before 2000s starts, 2000s before 2010s, 2010s before present |
| Config.PeriodsConsecutive | engine/config.py:18-43 | in table order each period ends before the next one starts: the periods do not overlap |
| Config.GetPeriodInfo | engine/config.py:313-317 | succeeds exactly for the four period names, returning the table entry; otherwise the ValueError "Unknown period: …" |
| Config.PeriodHasSensors | engine/config.py:313-317 | a period `get_period_info` finds lists at least one sensor |
| Config.BandMappings | engine/config.py:50-98 | four sensors, each mapping exactly blue, green, red, nir, swir1, swir2 and qa, with a scale factor in (0, 1) |
| Config.GetBandMapping | engine/config.py:320-324 | succeeds exactly for the four sensor ids with a mapping of the common band names; otherwise a ValueError |
| Config.ChangeThresholdTable | engine/config.py:209-226 | rows exist only for dndvi and dnbr, and each is ordered loss to gain with the stable band on the moderate bounds |
| Config.ChangeClasses | engine/config.py:228-234 | exactly the classes 1..5, each with a "#rrggbb" colour |
| Config.IndicesOrDefault | engine/change/detection.py:87-88 | an absent index list means ndvi and nbr; a given list is used as is |
| Config.VegChangeConfig.constructor | engine/config.py:241-271 | every field takes its argument, with the dataclass defaults when omitted |
| Config.DefaultConfig | engine/config.py:252-263 | the default record has all four periods, ndvi and nbr, 20 % cloud cover, 30 m scale and a 500 m buffer |
| Config.UnvalidatedConfig | engine/config.py:241-271 | construction validates nothing: a negative scale, a cloud cover above 100 and an unknown period are accepted |
| Detection.DefaultThresholds | engine/change/detection.py:30-31 | the fallback thresholds are always the dnbr or the dndvi row |
| Detection.ClassifyChange | engine/change/detection.py:14-34 | the result is the single band `change_class`, computable whenever the delta is one computable band |
| Detection.StripLeadingD | engine/change/detection.py:30-31 | removing every 'd' makes "d" + name and name look up the same row |
| Detection.DefaultThresholdsIff | engine/change/detection.py:30-31 | the dnbr row is used exactly when the name with every 'd' removed is "nbr", the dndvi row otherwise |
| Detection.NbrDeltaThresholds | engine/change/detection.py:63 | "dnbr" gets the dnbr row |
| Detection.NdviDeltaThresholds | engine/change/detection.py:63 | "dndvi" loses both d's, becomes "nvi", and gets the dndvi row only through the fallback |
| Detection.OtherDeltaThresholds | engine/change/detection.py:63 | "dndwi", "devi" and "dndmi" get the dndvi row |
| Detection.WithoutBIsDndvi | engine/change/detection.py:30-31 | a name without the letter b always gets the dndvi row |
| Detection.AnalyzePeriodChange | engine/change/detection.py:37-66 | the result has the bands "d" + index and `change_class`, in that order |
| Detection.AnalyzePeriodChangeValues | engine/change/detection.py:57-66 | where both composites carry the index band, each pixel holds after − before and the class of that difference under the effective thresholds |
| Detection.PairKey | engine/change/detection.py:119 | the key `a_to_b` ends with b after the four characters of "_to_" |
| Detection.PairKeyInjective | engine/change/detection.py:119 | keys against the same reference differ for different periods |
| Detection.PeriodChanges | engine/change/detection.py:101-105 | one analysis per index |
| Detection.ComparisonValues | engine/change/detection.py:97-120 | one comparison per period of the composites |
| Detection.CreateChangeAnalysis | engine/change/detection.py:69-122 | a missing reference raises the ValueError "Reference period '…' not in composites"; otherwise the result is the comparison dictionary over the (defaulted) index list |
| Detection.CompareAll | engine/change/detection.py:97-122 | the loop over the periods yields the comparison dictionary, or the IndexError of an empty index list |
| Detection.CompareNext | engine/change/detection.py:97-120 | one pass adds the period's comparison under its key, nothing for the reference, or fails only with an empty index list |
| Detection.ComparePeriod | engine/change/detection.py:101-117 | with no index `period_changes[0]` raises IndexError; otherwise the combined, annotated comparison |
| Detection.AnalyzeAll | engine/change/detection.py:103-105 | the inner loop produces one analysis per index, in index order |
| Detection.RekeyFrame | engine/change/detection.py:97-120 | the comparison dictionary reads only the non-reference periods |
| Detection.RekeyStep | engine/change/detection.py:119-120 | processing one more period adds exactly its key and comparison |
| Detection.RekeyKeys | engine/change/detection.py:97-120 | one key per non-reference period, never the reference's own key |
| Detection.ComparisonKeys | engine/change/detection.py:97-122 | with at least one index the keys are exactly `reference_to_p` for the other periods, never the reference against itself |
| Detection.ComparisonCount | engine/change/detection.py:97-122 | with at least one index there are |composites| − 1 comparisons |
| Detection.ComparisonContents | engine/change/detection.py:107-117 | each entry has a delta and a class band per index in index order, and the three metadata properties |
| Detection.PeriodChangesBands | engine/change/detection.py:103-105 | the i-th analysis has the bands "d" + indices[i] and `change_class` |
| Detection.EmptyIndicesFail | engine/change/detection.py:108 | an empty index list with any period besides the reference raises IndexError |
| Detection.CreateSequentialChange | engine/change/detection.py:125-159 | the loop builds the dictionary of consecutive-pair analyses |
| Detection.SequentialChangesKeys | engine/change/detection.py:143-157 | the keys are exactly those of consecutive pairs whose periods are both present; other pairs are skipped |
| Detection.SequentialChangesValues | engine/change/detection.py:150-157 | a present pair's entry is its analysis unless a later pair has the same key |
| Detection.ShortOrderEmpty | engine/change/detection.py:143 | fewer than two periods give an empty dictionary |
| ChangeStatistics.GetClassInfo | engine/change/statistics.py:79-100 | succeeds exactly for classes 1..5 with the class, its colour, and the English label for "en" or the Spanish label otherwise; any other class is the ValueError "Invalid class: …" |
| ChangeStatistics.NonEnglishIsSpanish | engine/change/statistics.py:94 | every language other than "en" reads the Spanish labels |
| ChangeStatistics.ClassColorsDistinct | engine/change/statistics.py:79-100 | the five classes have pairwise different colours |
| ChangeStatistics.ClassLabelsDistinct | engine/change/statistics.py:79-100 | the five classes have pairwise different labels in either language |
| ChangeStatistics.SummarizeChange | engine/change/statistics.py:103-128 | five entries, the i-th being the class information of class i + 1 |
| LegacyChange.CascadeIsLastMatch | veg_change_engine/core/change.py:86-101 | applying the `where` overwrites in order leaves the value of the last one whose test holds, the start value when none does |
| LegacyChange.Classify | veg_change_engine/core/change.py:74-103 | the older copy's classifier yields a class in 1..5 equal to the engine classifier's for every threshold set |
| CloudMasking.LandsatKeepIff | engine/composites/cloud_masking.py:30-45 | a Landsat pixel is kept exactly when `QA_PIXEL` bits 1, 3, 4 and 5 are all clear (mask 0x3A) |
| CloudMasking.SentinelKeepIff | engine/composites/cloud_masking.py:64-75 | a Sentinel-2 pixel is kept exactly when `QA60` bits 10 and 11 are both clear (mask 0xC00) |
| CloudMasking.LandsatOtherBitsIgnored | engine/composites/cloud_masking.py:30-45 | flipping any other `QA_PIXEL` bit never changes the Landsat decision |
| CloudMasking.SentinelOtherBitsIgnored | engine/composites/cloud_masking.py:64-75 | flipping any other `QA60` bit never changes the Sentinel-2 decision |
| CloudMasking.AllClearIff | engine/composites/cloud_masking.py:39-45 | the `.And` chain holds exactly when every listed bit is clear |
| CloudMasking.MaskOrderIrrelevant | engine/composites/cloud_masking.py:39-45 | combining the same per-bit tests in any order gives the same mask |
| CloudMasking.ApplyCloudMaskLandsat | engine/composites/cloud_masking.py:14-47 | band values and QA word are unchanged; the pixel stays valid exactly when it was valid and bits 1, 3, 4, 5 are clear |
| CloudMasking.ApplyCloudMaskSentinel | engine/composites/cloud_masking.py:50-77 | band values and QA word are unchanged; the pixel stays valid exactly when it was valid and bits 10, 11 are clear |
| CloudMasking.MaskIdempotent | engine/composites/cloud_masking.py:47 | masking twice gives the same pixel as masking once |
| Temporal.CloudProperty | engine/composites/temporal.py:153-176 | a sensor id containing "S2" or "COPERNICUS" is filtered on CLOUDY_PIXEL_PERCENTAGE, every other id on CLOUD_COVER |
| Temporal.MaskPixel | engine/composites/temporal.py:162-182 | the same test picks the Sentinel-2 QA60 mask or the Landsat QA_PIXEL mask, and band values are untouched |
| Temporal.Merged | engine/composites/temporal.py:152-191 | one filtered collection per sensor, in the listed order |
| Temporal.FusedComposite | engine/composites/temporal.py:127-203 | succeeds exactly when at least one sensor is listed, with the harmonized bands and the sensors and dates as properties; with none, `median` on `None` raises AttributeError |
| Temporal.CreateFusedComposite | engine/composites/temporal.py:150-203 | the merge loop computes `FusedComposite` |
| Temporal.FusedSensorDispatch | engine/composites/temporal.py:152-185 | the i-th merged collection is the i-th sensor's, filtered on the cloud property its id selects |
| Temporal.SentinelIdIsSentinel | engine/composites/temporal.py:153 | the configured Sentinel-2 id takes the Sentinel path |
| Temporal.GetImageCount | engine/composites/temporal.py:245-279 | the counted collection is the one-sensor merge of that sensor filtered to the area, the dates and the limit (20 by default), on the cloud property its id selects |
| Temporal.ImageCountMatchesFused | engine/composites/temporal.py:245-279 | for each sensor of a fused composite, `get_image_count` with the same area, dates and limit counts exactly the collection the composite merges for it, on the same cloud property |
| Temporal.PeriodComposite | engine/composites/temporal.py:227-240 | succeeds exactly for a known period with the harmonized bands and "period" set to the name; otherwise the ValueError of `get_period_info` |
| Temporal.CreateAllPeriodComposites | engine/composites/temporal.py:206-242 | the loop builds the period dictionary over the given periods, or all four when none are given, stopping at the first unknown period |
| Temporal.CreatePeriodComposite | engine/composites/temporal.py:228-239 | one iteration computes that period's composite |
| Temporal.PeriodCompositeOk | engine/composites/temporal.py:228-239 | a known period's composite carries the period's sensors, dates and name as properties |
| Temporal.AllPeriodCompositesOutcome | engine/composites/temporal.py:227-228 | the dictionary is built exactly when every requested name is a period; otherwise the first unknown name's ValueError is raised |
| Temporal.AllPeriodCompositesEntries | engine/composites/temporal.py:239-240 | one entry per distinct requested period, each with the harmonized bands and tagged with its own name |
| Temporal.AllPeriodCompositesKeys | engine/composites/temporal.py:206-242 | built exactly when every name is a period, and then keyed by exactly the requested names |
| Temporal.DefaultAllPeriods | engine/composites/temporal.py:222-223 | with no period list every configured period gets a composite |
| IndexBase.Calculate | engine/indices/vegetation.py:34-39 | `calculate` returns the input's bands followed by one band named after the index |
| IndexBase.IndexRegistry.constructor | engine/indices/base.py:35 | the registry starts empty |
| IndexBase.IndexRegistry.Put | engine/indices/__init__.py:40-44 | assigning a key replaces its entry; a new key goes to the end of the key order, an existing key keeps its place |
| IndexBase.IndexRegistry.RegisterIndex | engine/indices/base.py:38-40 | the index is filed under its own name, replacing a same-named entry, and every other entry and the key order are kept |
| IndexBase.IndexRegistry.GetAvailableIndices | engine/indices/base.py:43-45 | the registered names, each once, in insertion order |
| IndexBase.IndexRegistry.PopulateBuiltins | engine/indices/__init__.py:39-44 | the package import registers ndvi, nbr, ndwi, evi and ndmi, in that order |
| IndexBase.LoadedRegistry | veg_change_engine/core/indices.py:192-199 | the registry as loaded holds exactly the five built-in indices, in that order |
| IndexBase.RegisterKeepsOthers | engine/indices/base.py:38-40 | registering leaves every other name's entry unchanged |
| IndexConvenience.AddIndex | engine/indices/convenience.py:39-57 | succeeds exactly for a registered name, adding one band named after the index; otherwise the ValueError "Unknown index: …" listing the registered names |
| IndexConvenience.AddAllOutcome | engine/indices/convenience.py:77-81 | the fold succeeds exactly when every name is registered, and then adds one band per name after the input's bands, in list order |
| IndexConvenience.AddAllFirstError | engine/indices/convenience.py:77-81 | the error is the one for the first unregistered name |
| IndexConvenience.FirstUnknown | engine/indices/convenience.py:78-79 | the first unregistered name of the list, or none exactly when all are registered |
| IndexConvenience.AddAllError | engine/indices/convenience.py:77-81 | whether and how the fold fails depends on the names alone, never on the image |
| IndexConvenience.EmptyListKeepsImage | engine/indices/convenience.py:77-81 | an empty list returns the input image |
| IndexConvenience.AddAllIndices | engine/indices/convenience.py:60-81 | the loop computes the fold over the given list, or ndvi and nbr when none is given |
| IndexConvenience.BuiltinShortcuts | engine/indices/convenience.py:14-36 | `add_ndvi` … `add_ndmi` add the named built-in index's band |
| IndexConvenience.CalculateDeltaIndex | engine/indices/convenience.py:84-110 | the result is the single band "d" + name |
| IndexConvenience.DeltaIndexValue | engine/indices/convenience.py:105-108 | where both images carry the band, each pixel holds after − before |
| IndexConvenience.DeltaList | engine/indices/convenience.py:132-135 | one delta per index, in list order |
| IndexConvenience.DeltaNames | engine/indices/convenience.py:108 | the names "d" + index, in list order |
| IndexConvenience.DeltaIndicesBands | engine/indices/convenience.py:113-145 | the result has exactly the bands "d" + name, one per index in list order; an empty list fails with IndexError |
| IndexConvenience.SingleIndexDelta | engine/indices/convenience.py:138-139 | a single index returns that delta image itself |
| IndexConvenience.DeltaIndicesValues | engine/indices/convenience.py:132-145 | where both images carry every listed band, band k holds the k-th index's after − before |
| IndexConvenience.CalculateDeltaIndices | engine/indices/convenience.py:113-145 | the two loops compute the combined deltas over the given list or the default one |
| IndexConvenience.CalculateRelativeChange | engine/indices/convenience.py:148-174 | the result is the single band "rel_d" + name |
| IndexConvenience.RelativeChangeValue | engine/indices/convenience.py:166-174 | each pixel holds (after − before) / before × 100, with 0.001 in place of a zero before-value, so the divisor is never zero |
| Imagery.CombineAll | engine/indices/convenience.py:141-143 | the loop builds `images[0]` followed by `addBands` of each further image in order |
| Imagery.CombineConcatBands | engine/indices/convenience.py:141-143 | the combined image's bands are the bands of its parts, in order |
| Imagery.CombineSingleBands | engine/indices/convenience.py:141-143 | combining single-band images gives one band per image, band k holding image k's value |
| Imagery.DeltaValue | engine/indices/convenience.py:105-110 | `after.select(i) - before.select(i)` renamed "d" + i has that one band, holding after − before |
| Imagery.SelectValue | engine/indices/convenience.py:105-106 | selecting a present band yields that band's value under its own name |
| Imagery.AddBandsKeepsFirst | engine/indices/convenience.py:77-79 | `addBands` keeps the first image's bands and their values in front |
| Common.Lower | engine/io/aoi/loaders.py:46 | `lower()` restricted to ASCII: each of A-Z becomes its lower-case letter and every other character is kept |
| Common.RemoveChar | engine/change/detection.py:31 | `replace("d", "")` leaves no "d", removes characters only and keeps the rest |
| Common.SliceTo | services/change_orchestrator.py:172 | `xs[:n]` is a prefix of `xs`, of length min(n, len) for n ≥ 0, counting from the end for negative n |
| Common.CollectOk | engine/composites/temporal.py:227-240 | a dictionary filled key by key, stopping at the first exception, completes exactly when every key builds |
| Common.CollectErrorSticks | engine/composites/temporal.py:227-240 | once a key fails, later keys change nothing |
| Common.CollectFirstError | engine/composites/temporal.py:227-240 | the first key that fails decides the exception |
| Common.CollectEntries | engine/composites/temporal.py:227-240 | on success there is exactly one entry per listed key, holding what that key builds |
| Sorting.Insert | services/change_orchestrator.py:170 | insertion keeps every element (a permutation plus the new one) |
| Sorting.InsertSorted | services/change_orchestrator.py:170 | inserting into a sorted list keeps it sorted |
| Sorting.SortBy | services/change_orchestrator.py:170 | `sort(key=...)` returns a sorted permutation of its input |
| Sorting.SortByStable | services/change_orchestrator.py:183 | the sort is stable: elements with equal keys keep their input order |
| AoiLoaders.SupportsIgnoresCase | engine/io/aoi/loaders.py:45-91 | a built-in loader accepts a path exactly when it accepts the path's lower-cased form |
| AoiLoaders.BuiltinsDisjoint | engine/io/aoi/loaders.py:45-91 | no two different built-in loaders accept the same path |
| AoiLoaders.FindLoaderFirst | engine/io/aoi/loaders.py:115-120 | a loader is found exactly when one accepts the path, and it is the first such in registry order; otherwise "No loader found for file: …" |
| AoiLoaders.FindAfterAppend | engine/io/aoi/loaders.py:110-120 | registering a loader never changes the choice for a path an earlier loader accepts; otherwise the new loader is chosen exactly when it accepts the path |
| AoiLoaders.BuiltinChoice | engine/io/aoi/loaders.py:101-120 | with the built-in registry, a path a built-in loader accepts goes to that loader |
| AoiLoaders.LoaderRegistry.constructor | engine/io/aoi/loaders.py:101-107 | the registry starts as the five built-in loaders in their listed order |
| AoiLoaders.LoaderRegistry.RegisterLoader | engine/io/aoi/loaders.py:110-112 | the loader is appended after the existing ones |
| AoiLoaders.LoaderRegistry.GetLoader | engine/io/aoi/loaders.py:115-120 | the scan returns the first accepting loader, as the search function defines it |
| AoiLoaders.FirstKml | engine/io/aoi/loaders.py:166-169 | the first name of the listing ending in ".kml", hidden names included, or none exactly when no name ends so |
| AoiLoaders.KmzInnerFile | engine/io/aoi/loaders.py:162-169 | doc.kml when present, else the first name ending in ".kml" (hidden names included); fails with "No KML file found in KMZ: …" exactly when there is neither |
| AoiLoaders.HiddenKmlFound | engine/io/aoi/loaders.py:162-169 | an archive whose only KML file is ".a.kml" is read from that file |
| AoiLoaders.RecordedErrors | engine/io/aoi/loaders.py:187-214 | at most one recorded message per attempt |
| AoiLoaders.ReadFromFirst | engine/io/aoi/loaders.py:177-216 | the reader chain succeeds exactly when some attempt returns a non-empty table, and returns the first one; otherwise "Failed to read KML: " and the recorded errors joined by "; " |
| AoiLoaders.RecordedErrorsExact | engine/io/aoi/loaders.py:187-214 | exactly one message is recorded per attempt that raised |
| AoiLoaders.ReadKmlFile | engine/io/aoi/loaders.py:177-216 | the loop over LIBKML, KML, pyogrio and manual computes the reader chain's outcome |
| AoiLoaders.WithDefaultCrs | engine/io/aoi/loaders.py:297-304 | a table without a CRS gets EPSG 4326; a table with one is returned unchanged |
| AoiLoaders.DefaultCrsIdempotent | engine/io/aoi/loaders.py:297-304 | applying the default twice is applying it once |
| AoiLoaders.LoadAoi | engine/io/aoi/loaders.py:279-306 | no accepting loader gives the get_loader error; otherwise the chosen loader's table or error, with the default CRS applied |
| Colors.ToDict | veg_change_engine/viz/colors.py:32-41 | min and max always; palette, bands and gamma exactly when truthy, with their values; no other key |
| Colors.FalsyFieldsDropped | veg_change_engine/viz/colors.py:35-40 | a zero gamma or an empty palette yields the same dictionary as an absent one |
| Colors.GetVisParams | veg_change_engine/viz/colors.py:176-204 | the registered parameters exactly for a registered name; otherwise "Unknown vis params: …. Available: …" listing the registry's keys |
| Colors.RegistryNamesAreKeys | veg_change_engine/viz/colors.py:176-185 | the names listed in that message are exactly the registry's keys |
| Colors.GetColormap | veg_change_engine/viz/colors.py:207-218 | the palette of the named parameters, the empty list when they have none, the lookup error otherwise |
| Colors.ColormapExamples | veg_change_engine/viz/colors.py:147-168 | the composite parameter sets have no palette; change_class has the class palette |
| Colors.ClassPaletteMatchesClassTable | veg_change_engine/viz/colors.py:127-133 | palette entry k − 1 is the colour the change-class table gives class k |
| Colors.Clamp01 | veg_change_engine/viz/colors.py:239 | the result lies in [0, 1] and equals the input when the input already does |
| Colors.PaletteIndex | veg_change_engine/viz/colors.py:242 | the truncated position is a valid palette index |
| Colors.InterpolateColor | veg_change_engine/viz/colors.py:221-243 | grey for an empty palette; ZeroDivisionError exactly when the palette is non-empty and the range empty; otherwise a palette colour |
| Colors.InterpolateEndpoints | veg_change_engine/viz/colors.py:238-243 | values at or below the minimum get the first colour, at or above the maximum the last |
| Colors.InterpolateMonotone | veg_change_engine/viz/colors.py:238-242 | over an increasing range a larger value never maps to an earlier palette position |
| Colors.ClassLabels | veg_change_engine/viz/colors.py:250-285 | five labels: the Spanish ones for "es", the English ones for any other language |
| Colors.TitleOr | veg_change_engine/viz/colors.py:287 | `title or default`: the title unless it is absent or empty |
| Colors.LegendFor | veg_change_engine/viz/colors.py:268-329 | change_class gives five items, item k pairing palette colour k with label k; other types than change_class, ndvi and nbr give the empty legend |
| Colors.UnknownLanguageMix | veg_change_engine/viz/colors.py:285-287 | a language other than en and es gets the English labels under the Spanish default title |
| Colors.GetLegendHtml | veg_change_engine/viz/colors.py:268-329 | the item loop builds the legend the contents function defines |
| Colors.HexDigit | veg_change_engine/viz/colors.py:379 | a hex digit's value is below 16 |
| Colors.HexValue | veg_change_engine/viz/colors.py:379 | n hex digits denote a value below 16^n |
| Colors.ParseHex | veg_change_engine/viz/colors.py:379 | `int(s, 16)` succeeds exactly on a non-empty string of hex digits, giving its value |
| Colors.StripHashes | veg_change_engine/viz/colors.py:378 | `lstrip("#")` leaves no leading "#" and never lengthens the string |
| Colors.Pair | veg_change_engine/viz/colors.py:379 | a slice `s[i:i+2]` has at most two characters |
| Colors.HexToRgb | veg_change_engine/viz/colors.py:378-379 | a converted colour has its three components in [0, 1] |
| Colors.SixDigitColorParses | veg_change_engine/viz/colors.py:378-379 | every "#rrggbb" colour converts, red, green and blue being the first, second and third pair's value / 255 |
| Colors.ConvertAll | veg_change_engine/viz/colors.py:376-380 | on success one colour per palette entry, entry k converting to colour k |
| Colors.CmapComponentsInRange | veg_change_engine/viz/colors.py:359-382 | every colour of a colour map has its components in [0, 1] |
| Colors.GetMatplotlibCmap | veg_change_engine/viz/colors.py:359-382 | None for an empty palette; otherwise the loop converts colour by colour, stopping at the first failure |
| Colors.ConvertErrorSticks | veg_change_engine/viz/colors.py:377-380 | once a colour fails, converting more of the palette keeps that failure |
| Requests.ParsePeriod | app/api/models/requests.py:10-15 | a member exists exactly for the four period values, and its value is the input |
| Requests.PeriodRoundTrip | app/api/models/requests.py:10-15 | every period member is recovered from its value |
| Requests.ParseIndex | app/api/models/requests.py:18-24 | a member exists exactly for the five index values, and its value is the input |
| Requests.IndexRoundTrip | app/api/models/requests.py:18-24 | every index member is recovered from its value |
| Requests.ParsePeriods | app/api/models/requests.py:108-112 | a list is accepted exactly when every element is a period value, giving the members in order |
| Requests.ParseIndices | app/api/models/requests.py:113-117 | a list is accepted exactly when every element is an index value, giving the members in order |
| Requests.ValidBoxIff | app/api/models/requests.py:33-50 | a box is accepted exactly when all coordinates are in range and each maximum is strictly greater than its minimum |
| Requests.OrderCheckNeedsValidMinimum | app/api/models/requests.py:38-43 | an out-of-range min_lon hides the order error of max_lon, since the order validator sees only accepted fields |
| Requests.ToGeoJson | app/api/models/requests.py:52-63 | a Polygon with one closed ring of five positions built from the box's corners |
| Requests.RingCounterclockwise | app/api/models/requests.py:52-63 | for an accepted box the ring has four distinct corners and encloses twice the box's area with positive sign (counterclockwise, as section 3.1.6 of RFC 7946 asks of exterior rings) |
| Requests.AoiRule | app/api/models/requests.py:153-158 | no error exactly when exactly one of bbox and aoi_geojson is given |
| Requests.ValidateAnalysisRequest | app/api/models/requests.py:84-158 | an accepted request carries the parsed periods, indices and reference, and the site name, areas, buffer, cloud limit, export flag and folder unchanged; a field rejection lists exactly the failing fields |
| Requests.AnalysisAcceptedIff | app/api/models/requests.py:90-158 | an analysis request is accepted exactly when every field bound holds and exactly one area of interest is given |
| Requests.AoiMessages | app/api/models/requests.py:153-158 | with all fields valid, a missing and a doubled area of interest each get their own message |
| Requests.DefaultsAccepted | app/api/models/requests.py:90-145 | the defaults are accepted with a valid box, whatever reference period among the members is chosen |
| Requests.ValidatePreviewRequest | app/api/models/requests.py:161-190 | an accepted preview carries the parsed fields; a field rejection lists exactly the failing fields |
| Requests.PreviewAcceptedIff | app/api/models/requests.py:161-190 | a preview request is accepted exactly when its fields are valid and exactly one area of interest is given |
| AlphaEarth.AvailableRange | engine/alphaearth.py:32 | a year is available exactly when 2017 ≤ year ≤ 2023 |
| AlphaEarth.NewClient | engine/alphaearth.py:70-77 | the given configuration, or the default one (cosine, 0.85, scale 10) |
| AlphaEarth.GetEmbedding | engine/alphaearth.py:80-112 | the year's image exactly for an available year; otherwise "Year … not available. Available years: 2017-2023" |
| AlphaEarth.MultiYearOutcome | engine/alphaearth.py:114-132 | succeeds exactly when every year is available, with one entry per requested year holding its embedding; otherwise the first unavailable year's error |
| AlphaEarth.GetMultiYearEmbeddings | engine/alphaearth.py:129-132 | the loop fills the dictionary as the fold over the years defines it |
| AlphaEarth.ParseMetric | engine/alphaearth.py:154-161 | cosine, euclidean and manhattan are the metrics; any other name is "Unknown similarity method: …" |
| AlphaEarth.ComputeSimilarity | engine/alphaearth.py:134-161 | a result compares the two given embeddings, first with first |
| AlphaEarth.SimilarityDispatch | engine/alphaearth.py:152-218 | each metric names its band (cosine_similarity, euclidean_distance, manhattan_distance); no method or an empty one uses the client's configured metric, with its error when that is unknown (cosine for the default configuration); an unknown non-empty name is an error naming it |
| AlphaEarth.MaskValue | engine/alphaearth.py:251 | the mask holds 1 or 0 |
| AlphaEarth.DetectChangeOutcome | engine/alphaearth.py:220-266 | succeeds exactly when both years are available and the configured metric is known, the earlier year checked first; the mask flags a pixel exactly when its value is strictly below the configured threshold |
| AlphaEarth.DetectSemanticChange | engine/alphaearth.py:377-404 | the default client with the given threshold: cosine similarity, succeeding exactly for two available years |
| AlphaEarth.DistanceMaskTest | engine/alphaearth.py:251 | the strict test is applied to distance metrics too: identical embeddings are flagged, a distance equal to the threshold is not |
| AlphaEarth.ExtractFeatures | engine/alphaearth.py:272-310 | succeeds exactly for an available year; random points with seed 42 when no sample points are given, at the configured scale |
| AlphaEarth.TrajectoryYears | engine/alphaearth.py:331-334 | the requested years, all available years when none are given, sorted ascending with nothing added or lost |
| AlphaEarth.StepsOutcome | engine/alphaearth.py:341-349 | with a known metric there are n comparisons, the i-th pairing the i-th and (i+1)-th years' embeddings; with an unknown one the first pair fails |
| AlphaEarth.MultiYearKeys | engine/alphaearth.py:129-132 | on success every requested year has an entry |
| AlphaEarth.MultiYearValues | engine/alphaearth.py:129-132 | on success each entry holds its year's embedding |
| AlphaEarth.TrajectoryOf | engine/alphaearth.py:335-355 | a trajectory keeps the sorted years |
| AlphaEarth.GetTrajectory | engine/alphaearth.py:312-355 | a trajectory's years are the sorted requested years |
| AlphaEarth.TrajectoryOk | engine/alphaearth.py:335-349 | the trajectory exists exactly when every year is available and, with two or more years, the configured metric is known |
| AlphaEarth.TrajectoryShape | engine/alphaearth.py:341-355 | max(0, n − 1) comparisons, the i-th from year i to year i + 1 comparing their embeddings |
| AlphaEarth.GetTemporalTrajectory | engine/alphaearth.py:312-355 | the method computes the trajectory the function defines |
| AlphaEarth.TrajectoryFromSorted | engine/alphaearth.py:335-355 | the loop over neighbouring pairs computes the trajectory of the sorted years |
| AlphaEarth.StepsErrorSticks | engine/alphaearth.py:341-349 | once a comparison fails, later pairs keep that failure |
| EeInit.OptUrl | engine/ee_init.py:120-123 | the high-volume endpoint exactly when high volume is asked for |
| EeInit.EngineCallFor | engine/ee_init.py:96-171 | the interactive strategy never calls the engine; the service account passes its credentials and the project as given; stored credentials pass the project only when it is non-empty; both pass the endpoint choice |
| EeInit.PersistentError | engine/ee_init.py:135-150 | engine exceptions are classified by their lower-cased message, "not signed up" before "project", else "Initialization failed: …"; other exceptions propagate unchanged |
| EeInit.AlreadyInitializedNoop | engine/ee_init.py:92-93 | already initialized and not forced: nothing changes and the answer is True |
| EeInit.OutcomeAndState | engine/ee_init.py:68-205 | a failed initialization leaves all three fields unchanged and raises an authentication or engine error; a successful one answers True with a recorded method; the fields stay consistent |
| EeInit.StrategyOrder | engine/ee_init.py:96-205 | the service account runs whenever both its fields are given, recording the project as given; else stored credentials, recording the given or the detected project; else the interactive error with the state unchanged |
| EeInit.EEInitializer.constructor | engine/ee_init.py:48-51 | a new initializer is uninitialized, with no project and no method |
| EeInit.EEInitializer.Initialize | engine/ee_init.py:68-106 | the new fields and the outcome are those the transition function gives for the old fields |
| EeInit.EEInitializer.InitPersistent | engine/ee_init.py:113-150 | on success initialized, project given-or-detected, method "persistent_credentials"; on failure the classified error and no field changed |
| EeInit.EEInitializer.InitServiceAccount | engine/ee_init.py:152-181 | on success initialized, project as given, method "service_account"; on failure "Service account authentication failed: …" and no field changed |
| EeInit.EEInitializer.TestConnection | engine/ee_init.py:236-266 | uninitialized: not connected, "Not initialized", no project or method, engine not asked; otherwise connected exactly when the probe succeeds, reporting project and method |
| EeInit.Authenticate | engine/ee_init.py:220-234 | True exactly when authentication raises nothing; otherwise "Authentication failed: …" |
| Jobs.ParseStatus | services/change_orchestrator.py:56-62 | a parsed status has the given value |
| Jobs.StatusRoundTrip | services/change_orchestrator.py:56-62 | every status is recovered from its value, so the five values are distinct |
| Jobs.ToDict | services/change_orchestrator.py:82-94 | the dictionary's status parses back to the job's status; has_results exactly when results are set; id, progress and error copied |
| Jobs.NewJobDict | services/change_orchestrator.py:65-125 | a fresh job's dictionary: pending, progress 0, empty step, only the creation time, no error, no results |
| Jobs.ApplyAllAppend | services/change_orchestrator.py:142-144 | applying two argument lists in turn is applying their concatenation |
| Jobs.UnnamedFieldsKept | services/change_orchestrator.py:142-144 | an attribute no argument names keeps its value (id, status, config); unknown names change nothing |
| Jobs.UnnamedTimesKept | services/change_orchestrator.py:142-144 | an attribute no argument names keeps its value (the three times) |
| Jobs.UnnamedOutcomeKept | services/change_orchestrator.py:142-144 | an attribute no argument names keeps its value (progress, step, results, error) |
| Jobs.LastStatusWins | services/change_orchestrator.py:142-144 | the last argument naming the status decides it |
| Jobs.TerminalIds | services/change_orchestrator.py:180-183 | exactly the ids of completed or failed jobs |
| Jobs.Without | services/change_orchestrator.py:188-189 | deleting keys leaves exactly the other ids |
| Jobs.WithoutDistinct | services/change_orchestrator.py:188-189 | deleting keys keeps the ids distinct |
| Jobs.WithoutUnion | services/change_orchestrator.py:188-189 | deleting one set of keys after another is deleting their union |
| Jobs.DeleteStep | services/change_orchestrator.py:188-189 | one more deletion in the loop extends the deleted prefix by its id |
| Jobs.Victims | services/change_orchestrator.py:174-189 | only completed or failed jobs are chosen |
| Jobs.EvictionKeepsActive | services/change_orchestrator.py:174-189 | pending, running and cancelled jobs always survive, survivors are unchanged, and below capacity nothing is deleted |
| Jobs.EvictionBound | services/change_orchestrator.py:176-187 | nothing is deleted below capacity; at or above it at most size − capacity + 10 jobs |
| Jobs.EvictionOldestFirst | services/change_orchestrator.py:183-188 | no deleted job is younger (by completed_at or created_at) than a completed or failed job that survives |
| Jobs.SortedPrefixSmallest | services/change_orchestrator.py:183-188 | in a sorted list, an element of a prefix has no larger key than an element outside it |
| Jobs.CapacityCanBeExceeded | services/change_orchestrator.py:118-189 | a store of capacity 1 holding a pending job holds two jobs after the next create |
| Jobs.ValuesOf | services/change_orchestrator.py:164 | the stored jobs in dictionary order |
| Jobs.StoredValues | services/change_orchestrator.py:164-172 | every job drawn from the stored values is a stored job |
| Jobs.Matching | services/change_orchestrator.py:166-167 | exactly the jobs of that status, drawn from the input |
| Jobs.ListSpec | services/change_orchestrator.py:157-172 | only jobs of the requested status, newest first, drawn from the input, min(limit, matches) of them for a non-negative limit, and no selected job newer than a listed one is left out |
| Jobs.PrefixOfSelected | services/change_orchestrator.py:157-172 | a limited listing holds only jobs of the requested status, each drawn from the selection and from the stored jobs |
| Jobs.PrefixNewestFirst | services/change_orchestrator.py:157-172 | a limited listing is ordered by creation time, newest first |
| Jobs.PrefixKeepsNewest | services/change_orchestrator.py:157-172 | the limit drops only the oldest: a selected job newer than a listed one is listed too |
| Jobs.JobStore.constructor | services/change_orchestrator.py:108-116 | an empty store with the given capacity |
| Jobs.JobStore.Create | services/change_orchestrator.py:118-130 | a pending job under the uuid's first 8 characters, inserted after eviction; a colliding id overwrites the old job in place |
| Jobs.JobStore.CleanupOldJobs | services/change_orchestrator.py:174-189 | the store becomes the evicted store the eviction function defines |
| Jobs.JobStore.DeleteAll | services/change_orchestrator.py:188-189 | the loop deletes exactly the listed ids, keeping the others in order |
| Jobs.JobStore.Remove | services/change_orchestrator.py:152-153 | the id is gone and everything else is kept in order |
| Jobs.JobStore.Get | services/change_orchestrator.py:132-135 | the stored job exactly when the id is stored |
| Jobs.JobStore.Update | services/change_orchestrator.py:137-145 | an unknown id changes nothing and gives None; otherwise only that job changes, to the arguments applied in order |
| Jobs.JobStore.Delete | services/change_orchestrator.py:147-155 | True exactly when the id was stored; afterwards it is not |
| Jobs.JobStore.ListJobs | services/change_orchestrator.py:157-172 | the listing of the stored jobs in insertion order: the requested status, newest first, the newest min(limit, matches) of them, each one of the stored jobs |
| Orchestrator.AnalyzeEventsIncrease | services/change_orchestrator.py:264-304 | the nine reports of a successful analysis strictly increase from 0.0 to 1.0 |
| Orchestrator.IndexAll | services/change_orchestrator.py:276-282 | fails exactly when there is a composite and an index is unregistered, with the first unknown index's error; otherwise the same periods, each composite with its index bands |
| Orchestrator.StatisticsFor | services/change_orchestrator.py:294-302 | one statistics request per change image, under the comparison's own key |
| Orchestrator.AnalyzeSpec | services/change_orchestrator.py:228-311 | 2, 4, 6 or 9 reports are made; the analysis succeeds exactly when all 9 are; statistics cover exactly the change images |
| Orchestrator.IndexStage | services/change_orchestrator.py:276-311 | 4, 6 or 9 reports, success exactly with 9 |
| Orchestrator.ChangeStage | services/change_orchestrator.py:285-311 | 6 or 9 reports, success exactly with 9 |
| Orchestrator.AnalyzeSucceeds | services/change_orchestrator.py:228-311 | the analysis succeeds exactly when every period is known, the reference is among them, every index is registered, and the index list is non-empty unless the reference is the only period |
| Orchestrator.ChangeAnalysisOk | services/change_orchestrator.py:285-291 | with the reference present, the change stage fails only for an empty index list with another period |
| Orchestrator.NoPeriodsMissReference | services/change_orchestrator.py:267-291 | with no periods no index is checked and the reference is reported missing |
| Orchestrator.UpdateProgress | services/change_orchestrator.py:260-262 | the report reaches the callback exactly when there is one |
| Orchestrator.IndexComposites | services/change_orchestrator.py:277-281 | the loop over the composites computes the indexed map the function defines |
| Orchestrator.GenerateStatistics | services/change_orchestrator.py:295-302 | the loop computes one statistics request per change image |
| Orchestrator.RunAnalysis | services/change_orchestrator.py:228-311 | `analyze`'s outcome and its reports are those of the specification: the first n of the nine reports |
| Orchestrator.RunIndexStage | services/change_orchestrator.py:276-311 | the stages from the indices on, with their reports |
| Orchestrator.RunChangeStage | services/change_orchestrator.py:285-311 | the stages from the change analysis on, with their reports |
| Orchestrator.ScaledAll | services/change_orchestrator.py:379-382 | each report rescaled to 0.05 + p × 0.85, in order |
| Orchestrator.ScaledNonDecreasing | services/change_orchestrator.py:379-382 | rescaling keeps the order of the reports |
| Orchestrator.FileEventsNonDecreasing | services/change_orchestrator.py:354-429 | the file workflow's reports never go backwards, start at 0 and on success end at 1 "Complete", but "AOI prepared" and the first rescaled report are both at 0.05 |
| Orchestrator.PreparedEvents | services/change_orchestrator.py:376-429 | the reports after the area is prepared never go backwards and repeat 0.05 |
| Orchestrator.ScaledAnalyzeEvents | services/change_orchestrator.py:379-391 | the rescaled analysis reports start at 0.05 and never go backwards |
| Orchestrator.ReportedNonDecreasing | services/change_orchestrator.py:393-429 | the optional export report and the completion report keep the order |
| Orchestrator.AppendNonDecreasing | services/change_orchestrator.py:354-429 | two ordered report lists joined at a non-decreasing seam stay ordered |
| Orchestrator.FileOutcome | services/change_orchestrator.py:313-431 | the file workflow succeeds exactly when the file loads and the analysis succeeds, carrying the analysis unchanged with the area's measurements |
| Orchestrator.PreviewOutcome | services/change_orchestrator.py:433-468 | a preview exists exactly when the file loads, the period is known (else KeyError) and the index registered (else the unknown-index error); it has the six harmonized bands and the index band |
| Orchestrator.GetPeriodSummary | services/change_orchestrator.py:800-824 | the table entries of the listed known periods, every period without a list |
| Orchestrator.Summarize | services/change_orchestrator.py:813-822 | the loop keeps exactly the listed names found in the table, with their entries |
| Orchestrator.FullSummary | services/change_orchestrator.py:810-824 | without a list the summary is the whole period table; names outside the table never appear |
| Orchestrator.RunSucceeded | services/change_orchestrator.py:535-557 | a successful run ends completed at progress 1.0 "Complete" with its results and clock readings; an earlier error message is not cleared |
| Orchestrator.RunFailed | services/change_orchestrator.py:526-567 | a failed run ends failed with the exception's message, at the progress of the stage that raised (0.05, 0.45 or 0.65), keeping any earlier results |
| Orchestrator.RunIgnoresStatus | services/change_orchestrator.py:514-523 | the status a job had before the run plays no part: a cancelled or finished job is run again |
| Orchestrator.ChangeOrchestrator.constructor | services/change_orchestrator.py:215-222 | the given store, or a new empty one holding up to 100 jobs |
| Orchestrator.ChangeOrchestrator.Analyze | services/change_orchestrator.py:228-311 | the default configuration when none is given, its periods and indices when those are absent; outcome and reports as the specification says |
| Orchestrator.ChangeOrchestrator.AnalyzeFromFile | services/change_orchestrator.py:313-431 | without a configuration one is built from the arguments with `or` defaults; with one, its periods and indices win; outcome and reports as the file specification says |
| Orchestrator.ChangeOrchestrator.FileConfig | services/change_orchestrator.py:343-351 | the given configuration, or a new one from the arguments with the default lists for absent or empty ones |
| Orchestrator.ChangeOrchestrator.RunFileAnalysis | services/change_orchestrator.py:354-431 | the loading, rescaled analysis, export and completion reports and the outcome the file specification gives |
| Orchestrator.ChangeOrchestrator.Preview | services/change_orchestrator.py:433-468 | the period's fused composite with the one index band; the load error, KeyError for an unknown period, or the unknown-index error otherwise |
| Orchestrator.ChangeOrchestrator.CreateJob | services/change_orchestrator.py:474-485 | the new job's id is the uuid's first 8 characters and the store is the evicted store plus the new pending job |
| Orchestrator.ChangeOrchestrator.GetJob | services/change_orchestrator.py:487-497 | the stored job exactly when the id is stored |
| Orchestrator.ChangeOrchestrator.ListJobs | services/change_orchestrator.py:668-683 | the store's listing: stored jobs of the requested status, newest first, the newest min(limit, matches) of them |
| Orchestrator.ChangeOrchestrator.RecordStart | services/change_orchestrator.py:519-523 | only the job changes, to running since the given time |
| Orchestrator.ChangeOrchestrator.ReportAll | services/change_orchestrator.py:526-532 | after all reports the job shows the last one's progress and step; nothing else changes |
| Orchestrator.ChangeOrchestrator.RecordEnd | services/change_orchestrator.py:550-565 | completed with progress 1.0, "Complete" and the results, or failed with the message; nothing else changes |
| Orchestrator.ChangeOrchestrator.RecordRun | services/change_orchestrator.py:519-565 | start, reports and end applied in turn to the one job |
| Orchestrator.ChangeOrchestrator.RunJob | services/change_orchestrator.py:499-567 | a missing id does nothing; otherwise the job runs under its own configuration, ends completed with the statistics and "config" None, or failed, and the exception is re-raised |
| Orchestrator.ChangeOrchestrator.RunJobFromFile | services/change_orchestrator.py:569-644 | as run_job over the file workflow, storing statistics, centroid and area |
| Orchestrator.ChangeOrchestrator.CancelJob | services/change_orchestrator.py:646-666 | True exactly for a stored pending job, which becomes cancelled at the given time; otherwise nothing changes |
| Orchestrator.CancelledSurvivesEviction | services/change_orchestrator.py:174-189 | a cancelled job is never evicted |

## Left out

- Floating point: reals are exact and unbounded, so rounding, NaN and infinities are not modelled.
- Spectral-index formulas (NDVI, NBR, NDWI, EVI, NDMI), sensor scale factors and the AlphaEarth similarity arithmetic are opaque image leaves. `combine_with_spectral_change` and `get_alphaearth_embedding` are not modelled, because they are float arithmetic run remotely.
- Remote pixel computation (`median`, `clip`, `reduceRegion`, `updateMask` as executed remotely) is symbolic. Statistics are handles that record their change image, area and scale.
- Imagery.Eval: a zero divisor yields 0.0, where the engine would mask the pixel.
- Geometry is not modelled: reprojection, buffering, centroid, area and the buffer distance. `analyze_from_file` and `run_job_from_file` take the prepared area (geometry, centroid, area in hectares) as an input, and a failed load as an error value. The `aoi_gdf` and `aoi_buffered_gdf` results are not kept.
- File and XML reading are reader outcomes given as inputs. This covers `_parse_kml_manually`, `_enable_kml_driver` and `validate_geometry`, as well as the YAML load/save and `get_config` in the configuration module.
- Exports and export tasks in `analyze_from_file` are not modelled. Only the "Starting exports" progress report is kept.
- The module-level wrappers at the end of the orchestrator file (`analyze_vegetation_change`, `run_full_analysis`, `quick_preview` and the shared orchestrator) are not modelled. They only forward to the class.
- `_detect_project` is a parameter, and so are the credentials file's existence and the engine's answers to initialization calls. The text that `_init_interactive` prints is not modelled.
- HTML legends are modelled as their item lists, titles and the empty result for unknown types. The template text around the items is not modelled.
- Concurrency and the store's lock are not modelled: each store method is one atomic step.
- In `run_job`, the progress updates are applied after the analysis returns, in the order they were reported. The final state is the same as with updates during the run.
- Jobs.JobStore.Update: a value whose kind does not match the attribute is ignored. Python's `setattr` would store it anyway.
- Job records are values, so a caller holding the live job object returned by `get` does not see later updates.
- Times are clock integers rather than datetimes, and `isoformat` is the clock value.
- The `to_dict` branch of the stored "config" entry in `run_job` is not modelled: the configuration class has no `to_dict`, so the entry is always None.
- The composites dictionary is a Dafny map, so its key order is not modelled. Progress reports and results do not depend on it.
- Colors.ParseHex: accepts hex digits only. Python's `int(s, 16)` would also accept a sign, surrounding whitespace, underscores and a `0x` prefix.
- Temporal.FusedSensorDispatch: the dispatch is stated for any sensor id through the "S2"/"COPERNICUS" test. For the configured Sentinel-2 id it is shown to take the Sentinel path. For the configured Landsat ids, that they take the Landsat path is not proved.
- Imagery.Bands: `addBands` is modelled as plain concatenation of band names. Earth Engine renames a band whose name is already present by adding a numeric suffix (a second "change_class" becomes "change_class_1"). The suffix scheme belongs to the remote engine and is not modelled. Values are unaffected, and a `select` of the unsuffixed name still reads the first band of that name, as `Imagery.BandValue` does.
- Detection.ComparisonContents: lists "change_class" once per index. Earth Engine would name the second and later copies with a numeric suffix (see Imagery.Bands above), so for the default indices the bands are dndvi, change_class, dnbr, change_class_1.
- Imagery.CombineConcatBands: the combined band names are the plain concatenation; colliding names are not suffixed (see Imagery.Bands above).
- IndexConvenience.AddAllOutcome: an index name that is listed twice, or is already a band of the input, appears twice in the model's band names instead of being suffixed (see Imagery.Bands above).
- IndexConvenience.DeltaIndicesBands: an index listed twice gives "d" + name twice, where Earth Engine would suffix the second copy (see Imagery.Bands above).
- Common.Lower: ASCII-only case mapping. Python's `str.lower` is Unicode-aware: "\u212A" (Kelvin sign) lowers to "k", and some characters lower to two. So a path such as "area.\u212AMZ" is accepted by the KMZ loader in Python but by no built-in loader here. This reaches AoiLoaders.SupportsIgnoresCase, AoiLoaders.BuiltinChoice and the case-insensitive message test of EeInit.PersistentError.
