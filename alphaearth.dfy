/** Satellite-embedding client: the available years, similarity-metric dispatch,
    multi-year retrieval, the year-to-year trajectory and the change mask. The
    embedding images and the metric arithmetic run remotely; the model keeps which
    images are requested, which metric is chosen and how results are assembled. */
module AlphaEarth {
  import opened Common
  import Sorting
  import Imagery

  /** The annual embedding collection covers these years. */
  const AvailableYears: seq<int> := [2017, 2018, 2019, 2020, 2021, 2022, 2023]
  const EmbeddingDim: nat := 1536

  predicate Available(year: int) {
    year in AvailableYears
  }

  lemma AvailableRange(year: int)
    ensures Available(year) <==> 2017 <= year <= 2023
  {
  }

  datatype EmbeddingConfig = EmbeddingConfig(similarityMetric: string, similarityThreshold: real, scale: int)

  const DefaultConfig: EmbeddingConfig := EmbeddingConfig("cosine", 0.85, 10)

  datatype Client = Client(config: EmbeddingConfig)

  /** `AlphaEarthClient(config)`: the given configuration, or the default one. */
  function NewClient(config: Option<EmbeddingConfig>): (c: Client)
    ensures config.Some? ==> c.config == config.value
    ensures config.None? ==> c.config == DefaultConfig
  {
    Client(if config.Some? then config.value else DefaultConfig)
  }

  /** The collection's image for one year, clipped to the area of interest. */
  datatype Embedding = Embedding(aoi: Imagery.Aoi, year: int)

  function YearUnavailable(year: int): Error {
    ValueError("Year " + IntRepr(year) + " not available. Available years: 2017-2023")
  }

  /** `get_embedding` */
  function GetEmbedding(aoi: Imagery.Aoi, year: int): (r: Result<Embedding>)
    ensures r.Ok? <==> 2017 <= year <= 2023
    ensures r.Ok? ==> r.value == Embedding(aoi, year)
    ensures r.Err? ==> r.error == YearUnavailable(year)
  {
    if year !in AvailableYears then Err(YearUnavailable(year)) else Ok(Embedding(aoi, year))
  }

  function EmbeddingOf(aoi: Imagery.Aoi): int -> Result<Embedding> {
    year => GetEmbedding(aoi, year)
  }

  /** `get_multi_year_embeddings` as a dictionary filled year by year, the first unavailable year raising. */
  function MultiYear(aoi: Imagery.Aoi, years: seq<int>): Result<map<int, Embedding>> {
    Collect(years, EmbeddingOf(aoi), |years|)
  }

  /** One entry per requested year holding that year's embedding, or the error of the first unavailable year. */
  lemma {:induction false} MultiYearOutcome(aoi: Imagery.Aoi, years: seq<int>)
    ensures MultiYear(aoi, years).Ok? <==> forall i :: 0 <= i < |years| ==> 2017 <= years[i] <= 2023
    ensures MultiYear(aoi, years).Ok? ==>
              (forall y :: y in MultiYear(aoi, years).value <==> y in years)
              && forall y :: y in MultiYear(aoi, years).value ==> MultiYear(aoi, years).value[y] == Embedding(aoi, y)
    ensures forall j :: 0 <= j < |years| && !(2017 <= years[j] <= 2023)
              && (forall i :: 0 <= i < j ==> 2017 <= years[i] <= 2023)
              ==> MultiYear(aoi, years) == Err(YearUnavailable(years[j]))
  {
    var build := EmbeddingOf(aoi);
    CollectOk(years, build, |years|);
    if MultiYear(aoi, years).Ok? {
      CollectEntries(years, build, |years|);
      assert years[..|years|] == years;
    }
    forall j | 0 <= j < |years| && !(2017 <= years[j] <= 2023) && (forall i :: 0 <= i < j ==> 2017 <= years[i] <= 2023)
      ensures MultiYear(aoi, years) == Err(YearUnavailable(years[j]))
    {
      CollectFirstError(years, build, |years|, j);
    }
  }

  /** `get_multi_year_embeddings` */
  method GetMultiYearEmbeddings(aoi: Imagery.Aoi, years: seq<int>) returns (r: Result<map<int, Embedding>>)
    ensures r == MultiYear(aoi, years)
  {
    var embeddings: map<int, Embedding> := map[];
    var i := 0;
    while i < |years|
      invariant 0 <= i <= |years|
      invariant Collect(years, EmbeddingOf(aoi), i) == Ok(embeddings)
    {
      var e := GetEmbedding(aoi, years[i]);
      CollectStep(years, EmbeddingOf(aoi), i, embeddings);
      if e.Err? {
        return Err(e.error);
      }
      embeddings := embeddings[years[i] := e.value];
      i := i + 1;
    }
    r := Ok(embeddings);
  }

  // ---------------------------------------------------------------------------
  // Similarity
  // ---------------------------------------------------------------------------

  datatype Metric = Cosine | Euclidean | Manhattan

  /** The band each metric's image is renamed to. */
  function MetricBand(m: Metric): string {
    match m
    case Cosine => "cosine_similarity"
    case Euclidean => "euclidean_distance"
    case Manhattan => "manhattan_distance"
  }

  /** A similarity (or distance) image of two embeddings. */
  datatype Similarity = Similarity(metric: Metric, first: Embedding, second: Embedding)

  function SimilarityBands(s: Similarity): seq<string> {
    [MetricBand(s.metric)]
  }

  /** `method or self.config.similarity_metric`: an absent or empty name falls back to the configured one. */
  function MetricName(config: EmbeddingConfig, name: Option<string>): string {
    if name.None? || name.value == "" then config.similarityMetric else name.value
  }

  function ParseMetric(name: string): (r: Result<Metric>)
    ensures r.Ok? <==> name == "cosine" || name == "euclidean" || name == "manhattan"
    ensures r.Err? ==> r.error == ValueError("Unknown similarity method: " + name)
  {
    if name == "cosine" then Ok(Cosine)
    else if name == "euclidean" then Ok(Euclidean)
    else if name == "manhattan" then Ok(Manhattan)
    else Err(ValueError("Unknown similarity method: " + name))
  }

  /** `compute_similarity` */
  function ComputeSimilarity(client: Client, e1: Embedding, e2: Embedding, requested: Option<string>): (r: Result<Similarity>)
    ensures r.Ok? ==> r.value.first == e1 && r.value.second == e2
  {
    var m := ParseMetric(MetricName(client.config, requested));
    if m.Err? then Err(m.error) else Ok(Similarity(m.value, e1, e2))
  }

  /** The chosen metric names the output band; without a method, or with an empty one, the client's
      configured metric decides (cosine for the default configuration); any other name is an error naming it. */
  lemma {:induction false} SimilarityDispatch(client: Client, e1: Embedding, e2: Embedding, requested: Option<string>)
    ensures requested == Some("cosine") ==> ComputeSimilarity(client, e1, e2, requested) == Ok(Similarity(Cosine, e1, e2))
    ensures requested == Some("euclidean") ==> SimilarityBands(ComputeSimilarity(client, e1, e2, requested).value) == ["euclidean_distance"]
    ensures requested == Some("manhattan") ==> SimilarityBands(ComputeSimilarity(client, e1, e2, requested).value) == ["manhattan_distance"]
    ensures (requested.None? || requested == Some("")) ==>
              ComputeSimilarity(client, e1, e2, requested)
              == (var m := ParseMetric(client.config.similarityMetric);
                  if m.Ok? then Ok(Similarity(m.value, e1, e2)) else Err(m.error))
    ensures client.config == DefaultConfig && (requested.None? || requested == Some("")) ==>
              SimilarityBands(ComputeSimilarity(client, e1, e2, requested).value) == ["cosine_similarity"]
    ensures requested.Some? && requested.value != "" && ParseMetric(requested.value).Err? ==>
              ComputeSimilarity(client, e1, e2, requested) == Err(ValueError("Unknown similarity method: " + requested.value))
  {
    if requested == Some("euclidean") {
      assert "euclidean" != "cosine" by { assert "euclidean"[0] != "cosine"[0]; }
    }
    if requested == Some("manhattan") {
      assert "manhattan" != "cosine" && "manhattan" != "euclidean" by {
        assert "manhattan"[0] != "cosine"[0] && "manhattan"[0] != "euclidean"[0];
      }
    }
  }

  // ---------------------------------------------------------------------------
  // Change detection
  // ---------------------------------------------------------------------------

  const ChangeBand: string := "embedding_change"

  /** `similarity.lt(threshold)` renamed "embedding_change". */
  datatype ChangeMask = ChangeMask(similarity: Similarity, threshold: real)

  /** The mask's value at a pixel whose similarity (or distance) value is `v`. */
  function MaskValue(mask: ChangeMask, v: real): (r: int)
    ensures r == 1 || r == 0
  {
    if v < mask.threshold then 1 else 0
  }

  /** Mean, standard deviation, minimum and maximum of the similarity over the area, at the configured scale. */
  datatype RegionStats = RegionStats(similarity: Similarity, aoi: Imagery.Aoi, scale: int)

  datatype ChangeResult = ChangeResult(similarity: Similarity, changeMask: ChangeMask,
                                       embBefore: Embedding, embAfter: Embedding, statistics: RegionStats)

  /** `detect_change_embedding` */
  function DetectChangeEmbedding(client: Client, aoi: Imagery.Aoi, yearBefore: int, yearAfter: int): Result<ChangeResult> {
    var before := GetEmbedding(aoi, yearBefore);
    if before.Err? then Err(before.error)
    else
      var after := GetEmbedding(aoi, yearAfter);
      if after.Err? then Err(after.error)
      else
        var sim := ComputeSimilarity(client, before.value, after.value, None);
        if sim.Err? then Err(sim.error)
        else Ok(ChangeResult(sim.value, ChangeMask(sim.value, client.config.similarityThreshold),
                             before.value, after.value, RegionStats(sim.value, aoi, client.config.scale)))
  }

  /** Change detection succeeds exactly when both years are available and the configured metric is known;
      the earlier year is checked first; the mask flags a pixel exactly when its value is strictly below the
      configured threshold. */
  lemma {:induction false} DetectChangeOutcome(client: Client, aoi: Imagery.Aoi, yearBefore: int, yearAfter: int, v: real)
    ensures DetectChangeEmbedding(client, aoi, yearBefore, yearAfter).Ok? <==>
              2017 <= yearBefore <= 2023 && 2017 <= yearAfter <= 2023 && ParseMetric(client.config.similarityMetric).Ok?
    ensures !(2017 <= yearBefore <= 2023) ==> DetectChangeEmbedding(client, aoi, yearBefore, yearAfter) == Err(YearUnavailable(yearBefore))
    ensures DetectChangeEmbedding(client, aoi, yearBefore, yearAfter).Ok? ==>
              var res := DetectChangeEmbedding(client, aoi, yearBefore, yearAfter).value;
              res.embBefore == Embedding(aoi, yearBefore) && res.embAfter == Embedding(aoi, yearAfter)
              && res.changeMask.similarity == res.similarity
              && res.similarity.first == res.embBefore && res.similarity.second == res.embAfter
              && (MaskValue(res.changeMask, v) == 1 <==> v < client.config.similarityThreshold)
  {
  }

  /** `detect_semantic_change`: the default client with the given threshold. */
  function DetectSemanticChange(aoi: Imagery.Aoi, yearBefore: int, yearAfter: int, threshold: real): (r: Result<ChangeResult>)
    ensures r.Ok? <==> 2017 <= yearBefore <= 2023 && 2017 <= yearAfter <= 2023
    ensures r.Ok? ==> r.value.similarity.metric == Cosine && r.value.changeMask.threshold == threshold
  {
    DetectChangeEmbedding(Client(DefaultConfig.(similarityThreshold := threshold)), aoi, yearBefore, yearAfter)
  }

  /** The strict test is applied whatever the metric: with a distance metric, identical embeddings
      (distance 0) are flagged and distances at or above the threshold are not. */
  lemma DistanceMaskTest(e: Embedding)
    ensures MaskValue(ChangeMask(Similarity(Euclidean, e, e), 0.85), 0.0) == 1
    ensures MaskValue(ChangeMask(Similarity(Manhattan, e, e), 0.85), 0.85) == 0
  {
  }

  // ---------------------------------------------------------------------------
  // Features for machine learning
  // ---------------------------------------------------------------------------

  /** The points to sample: the caller's collection, or random points in the area with a fixed seed. */
  datatype SamplePoints = GivenPoints(id: nat) | RandomPoints(region: Imagery.Aoi, count: int, seed: int)

  datatype FeatureSample = FeatureSample(embedding: Embedding, points: SamplePoints, scale: int)

  /** `extract_features_for_ml` */
  function ExtractFeatures(client: Client, aoi: Imagery.Aoi, year: int, samplePoints: Option<nat>, numSamples: int): (r: Result<FeatureSample>)
    ensures r.Ok? <==> 2017 <= year <= 2023
    ensures r.Ok? ==> r.value.embedding == Embedding(aoi, year) && r.value.scale == client.config.scale
    ensures r.Ok? && samplePoints.None? ==> r.value.points == RandomPoints(aoi, numSamples, 42)
    ensures r.Ok? && samplePoints.Some? ==> r.value.points == GivenPoints(samplePoints.value)
  {
    var e := GetEmbedding(aoi, year);
    if e.Err? then Err(e.error)
    else
      var points := if samplePoints.None? then RandomPoints(aoi, numSamples, 42) else GivenPoints(samplePoints.value);
      Ok(FeatureSample(e.value, points, client.config.scale))
  }

  // ---------------------------------------------------------------------------
  // Temporal trajectory
  // ---------------------------------------------------------------------------

  function YearKey(y: int): int { y }

  /** One year-to-year comparison of the trajectory. */
  datatype Step = Step(yearFrom: int, yearTo: int, similarity: Similarity)

  datatype Trajectory = Trajectory(embeddings: map<int, Embedding>, similarities: seq<Step>, years: seq<int>)

  /** The requested years, all available ones when none are given, in ascending order. */
  function TrajectoryYears(years: Option<seq<int>>): (s: seq<int>)
    ensures Sorting.SortedBy(s, YearKey)
    ensures years.Some? ==> multiset(s) == multiset(years.value)
    ensures years.None? ==> multiset(s) == multiset(AvailableYears)
  {
    Sorting.SortBy(if years.Some? then years.value else AvailableYears, YearKey)
  }

  /** The first `n` year-to-year comparisons over the sorted years, each pairing neighbours; the first
      failing metric lookup ends the loop. */
  function Steps(client: Client, sorted: seq<int>, embeddings: map<int, Embedding>, n: nat): Result<seq<Step>>
    requires n < |sorted| || n == 0
    requires forall y :: y in sorted ==> y in embeddings
  {
    if n == 0 then Ok([])
    else
      var prev := Steps(client, sorted, embeddings, n - 1);
      if prev.Err? then prev
      else
        var y1 := sorted[n - 1];
        var y2 := sorted[n];
        var sim := ComputeSimilarity(client, embeddings[y1], embeddings[y2], None);
        if sim.Err? then Err(sim.error) else Ok(prev.value + [Step(y1, y2, sim.value)])
  }

  /** With a known configured metric every pair is compared; with an unknown one, the first pair fails. */
  lemma {:induction false} StepsOutcome(client: Client, sorted: seq<int>, embeddings: map<int, Embedding>, n: nat)
    requires n < |sorted| || n == 0
    requires forall y :: y in sorted ==> y in embeddings
    ensures Steps(client, sorted, embeddings, n).Ok? <==> n == 0 || ParseMetric(client.config.similarityMetric).Ok?
    ensures Steps(client, sorted, embeddings, n).Ok? ==>
              var s := Steps(client, sorted, embeddings, n).value;
              |s| == n
              && forall i :: 0 <= i < n ==>
                   s[i] == Step(sorted[i], sorted[i + 1],
                                Similarity(ParseMetric(client.config.similarityMetric).value, embeddings[sorted[i]], embeddings[sorted[i + 1]]))
  {
    if n > 0 {
      StepsOutcome(client, sorted, embeddings, n - 1);
      if n > 1 {
        assert Steps(client, sorted, embeddings, n - 1).Ok? <==> ParseMetric(client.config.similarityMetric).Ok?;
      }
    }
  }

  /** On success every requested year has an entry. */
  lemma {:induction false} MultiYearKeys(aoi: Imagery.Aoi, years: seq<int>)
    requires MultiYear(aoi, years).Ok?
    ensures forall y :: y in years ==> y in MultiYear(aoi, years).value
  {
    CollectEntries(years, EmbeddingOf(aoi), |years|);
    assert years[..|years|] == years;
  }

  /** Number of neighbouring pairs among `n` years. */
  function PairCount(n: nat): nat {
    if n == 0 then 0 else n - 1
  }

  /** The trajectory over years already sorted: their embeddings, then the comparisons. */
  function TrajectoryOf(client: Client, aoi: Imagery.Aoi, sorted: seq<int>): (r: Result<Trajectory>)
    ensures r.Ok? ==> r.value.years == sorted
  {
    var embeddings := MultiYear(aoi, sorted);
    if embeddings.Err? then Err(embeddings.error)
    else
      MultiYearKeys(aoi, sorted);
      var steps := Steps(client, sorted, embeddings.value, PairCount(|sorted|));
      if steps.Err? then Err(steps.error) else Ok(Trajectory(embeddings.value, steps.value, sorted))
  }

  /** `get_temporal_trajectory` */
  function GetTrajectory(client: Client, aoi: Imagery.Aoi, years: Option<seq<int>>): (r: Result<Trajectory>)
    ensures r.Ok? ==> r.value.years == TrajectoryYears(years)
  {
    TrajectoryOf(client, aoi, TrajectoryYears(years))
  }

  /** The trajectory exists exactly when every year is available and, with two or more years, the
      configured metric is known. */
  lemma {:induction false} TrajectoryOk(client: Client, aoi: Imagery.Aoi, sorted: seq<int>)
    ensures TrajectoryOf(client, aoi, sorted).Ok? <==>
              (forall i :: 0 <= i < |sorted| ==> 2017 <= sorted[i] <= 2023)
              && (|sorted| < 2 || ParseMetric(client.config.similarityMetric).Ok?)
  {
    MultiYearOutcome(aoi, sorted);
    if MultiYear(aoi, sorted).Ok? {
      MultiYearKeys(aoi, sorted);
      StepsOutcome(client, sorted, MultiYear(aoi, sorted).value, PairCount(|sorted|));
    }
  }

  /** The trajectory keeps the years as given and holds max(0, n - 1) comparisons, the i-th pairing the
      embeddings of the i-th and (i+1)-th years. */
  lemma {:induction false} TrajectoryShape(client: Client, aoi: Imagery.Aoi, sorted: seq<int>)
    requires TrajectoryOf(client, aoi, sorted).Ok?
    ensures var t := TrajectoryOf(client, aoi, sorted).value;
            t.years == sorted && |t.similarities| == PairCount(|sorted|)
            && forall i :: 0 <= i < |t.similarities| ==>
                 t.similarities[i].yearFrom == sorted[i] && t.similarities[i].yearTo == sorted[i + 1]
                 && t.similarities[i].similarity.first == Embedding(aoi, sorted[i])
                 && t.similarities[i].similarity.second == Embedding(aoi, sorted[i + 1])
  {
    var embeddings := MultiYear(aoi, sorted).value;
    MultiYearKeys(aoi, sorted);
    MultiYearValues(aoi, sorted);
    StepsOutcome(client, sorted, embeddings, PairCount(|sorted|));
    var t := TrajectoryOf(client, aoi, sorted).value;
    assert t.similarities == Steps(client, sorted, embeddings, PairCount(|sorted|)).value;
    var m := ParseMetric(client.config.similarityMetric);
    forall i | 0 <= i < |t.similarities|
      ensures t.similarities[i].yearFrom == sorted[i] && t.similarities[i].yearTo == sorted[i + 1]
      ensures t.similarities[i].similarity.first == Embedding(aoi, sorted[i])
      ensures t.similarities[i].similarity.second == Embedding(aoi, sorted[i + 1])
    {
      assert t.similarities[i] == Step(sorted[i], sorted[i + 1], Similarity(m.value, embeddings[sorted[i]], embeddings[sorted[i + 1]]));
      assert sorted[i] in sorted && sorted[i + 1] in sorted;
      assert embeddings[sorted[i]] == Embedding(aoi, sorted[i]);
      assert embeddings[sorted[i + 1]] == Embedding(aoi, sorted[i + 1]);
    }
  }

  /** On success each entry holds its year's embedding. */
  lemma {:induction false} MultiYearValues(aoi: Imagery.Aoi, years: seq<int>)
    requires MultiYear(aoi, years).Ok?
    ensures forall y :: y in MultiYear(aoi, years).value ==> MultiYear(aoi, years).value[y] == Embedding(aoi, y)
  {
    CollectEntries(years, EmbeddingOf(aoi), |years|);
  }

  /** `get_temporal_trajectory`: the embeddings, then one comparison per neighbouring pair of sorted years. */
  method GetTemporalTrajectory(client: Client, aoi: Imagery.Aoi, years: Option<seq<int>>) returns (r: Result<Trajectory>)
    ensures r == GetTrajectory(client, aoi, years)
  {
    var sorted := TrajectoryYears(years);
    r := TrajectoryFromSorted(client, aoi, sorted);
  }

  /** The loop of `get_temporal_trajectory` over the sorted years. */
  method TrajectoryFromSorted(client: Client, aoi: Imagery.Aoi, sorted: seq<int>) returns (r: Result<Trajectory>)
    ensures r == TrajectoryOf(client, aoi, sorted)
  {
    var embeddings := GetMultiYearEmbeddings(aoi, sorted);
    if embeddings.Err? {
      return Err(embeddings.error);
    }
    MultiYearKeys(aoi, sorted);
    var n := PairCount(|sorted|);
    var similarities: seq<Step> := [];
    var i := 0;
    while i < n
      invariant 0 <= i <= n
      invariant Steps(client, sorted, embeddings.value, i) == Ok(similarities)
    {
      var y1, y2 := sorted[i], sorted[i + 1];
      var sim := ComputeSimilarity(client, embeddings.value[y1], embeddings.value[y2], None);
      if sim.Err? {
        StepsErrorSticks(client, sorted, embeddings.value, i + 1, n);
        return Err(sim.error);
      }
      similarities := similarities + [Step(y1, y2, sim.value)];
      i := i + 1;
    }
    r := Ok(Trajectory(embeddings.value, similarities, sorted));
  }

  lemma {:induction false} StepsErrorSticks(client: Client, sorted: seq<int>, embeddings: map<int, Embedding>, i: nat, n: nat)
    requires i <= n && (n < |sorted| || n == 0)
    requires forall y :: y in sorted ==> y in embeddings
    requires Steps(client, sorted, embeddings, i).Err?
    ensures Steps(client, sorted, embeddings, n) == Steps(client, sorted, embeddings, i)
    decreases n - i
  {
    if i < n {
      StepsErrorSticks(client, sorted, embeddings, i, n - 1);
    }
  }
}
