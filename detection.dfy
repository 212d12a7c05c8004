/** Change detection between period composites: per-index delta bands, their
    classification, and the dictionaries of comparisons keyed "<a>_to_<b>". */
module Detection {
  import opened Common
  import Config
  import Thresholds
  import opened Imagery

  // ---------------------------------------------------------------------------
  // classify_change
  // ---------------------------------------------------------------------------

  /** Thresholds `classify_change` falls back on: the row for the name with every 'd' removed. */
  function DefaultThresholds(indexName: string): (t: Thresholds.ChangeThresholds)
    ensures t == Thresholds.Dnbr || t == Thresholds.Dndvi
  {
    Thresholds.FromConfig(RemoveChar(indexName, 'd'))
  }

  function EffectiveThresholds(thresholds: Option<Thresholds.ChangeThresholds>, indexName: string): Thresholds.ChangeThresholds {
    if thresholds.Some? then thresholds.value else DefaultThresholds(indexName)
  }

  /** `classify_change`: a one-band `change_class` image whose value at each pixel is the class of the delta. */
  function ClassifyChange(delta: Image, thresholds: Option<Thresholds.ChangeThresholds>, indexName: string := "dndvi"): (r: Image)
    ensures Bands(r) == [ChangeClassBand]
    ensures Defined(delta) && SingleBand(delta) ==> Defined(r)
  {
    Classified(delta, EffectiveThresholds(thresholds, indexName))
  }

  /** Removing every 'd' from a name and from the same name behind a leading 'd' gives the same result. */
  lemma {:induction false} StripLeadingD(name: string)
    ensures RemoveChar("d" + name, 'd') == RemoveChar(name, 'd')
  {
    assert ("d" + name)[0] == 'd';
    assert ("d" + name)[1..] == name;
  }

  /** The dnbr row is used exactly when the name, with every 'd' removed, is "nbr". */
  lemma {:induction false} DefaultThresholdsIff(indexName: string)
    ensures DefaultThresholds(indexName) == Thresholds.Dnbr <==> RemoveChar(indexName, 'd') == "nbr"
    ensures DefaultThresholds(indexName) == Thresholds.Dndvi <==> RemoveChar(indexName, 'd') != "nbr"
  {
    assert Thresholds.Dnbr != Thresholds.Dndvi by {
      assert Thresholds.Dnbr.strongLoss != Thresholds.Dndvi.strongLoss;
    }
  }

  /** The delta name of nbr gets the dnbr row. */
  lemma {:induction false} NbrDeltaThresholds()
    ensures DefaultThresholds("dnbr") == Thresholds.Dnbr
  {
    DefaultThresholdsIff("dnbr");
  }

  /** The delta name of ndvi loses both its d's, becomes "nvi", and gets the dndvi row only through the fallback. */
  lemma {:induction false} NdviDeltaThresholds()
    ensures RemoveChar("dndvi", 'd') == "nvi"
    ensures DefaultThresholds("dndvi") == Thresholds.Dndvi
  {
    DefaultThresholdsIff("dndvi");
  }

  /** The delta names of the other built-in indices get the dndvi row. */
  lemma {:induction false} OtherDeltaThresholds()
    ensures DefaultThresholds("dndwi") == Thresholds.Dndvi
    ensures DefaultThresholds("devi") == Thresholds.Dndvi && DefaultThresholds("dndmi") == Thresholds.Dndvi
  {
    WithoutBIsDndvi("dndwi");
    WithoutBIsDndvi("devi");
    WithoutBIsDndvi("dndmi");
  }

  /** A name without the letter b can never become "nbr", so it gets the dndvi row. */
  lemma {:induction false} WithoutBIsDndvi(indexName: string)
    requires forall i :: 0 <= i < |indexName| ==> indexName[i] != 'b'
    ensures DefaultThresholds(indexName) == Thresholds.Dndvi
  {
    var r := RemoveChar(indexName, 'd');
    assert 'b' !in r;
    var nbr: string := "nbr";
    assert nbr[1] == 'b';
  }

  // ---------------------------------------------------------------------------
  // analyze_period_change
  // ---------------------------------------------------------------------------

  /** `analyze_period_change`: the delta band followed by its classification. */
  function AnalyzePeriodChange(before: Image, after: Image, indexName: string := "ndvi",
                               thresholds: Option<Thresholds.ChangeThresholds> := None): (r: Image)
    ensures Bands(r) == [DeltaName(indexName), ChangeClassBand]
  {
    var delta := Delta(before, after, indexName);
    AddBands(delta, ClassifyChange(delta, thresholds, DeltaName(indexName)))
  }

  /** Where both composites carry the index band, the result is defined and holds, at every pixel,
      after − before and the class of that difference under the effective thresholds. */
  lemma {:induction false} AnalyzePeriodChangeValues(before: Image, after: Image, indexName: string,
                                                     thresholds: Option<Thresholds.ChangeThresholds>, px: Sample)
    requires Defined(before) && Defined(after)
    requires indexName in Bands(before) && indexName in Bands(after)
    ensures Defined(AnalyzePeriodChange(before, after, indexName, thresholds))
    ensures var d := BandValue(after, indexName, px) - BandValue(before, indexName, px);
            Eval(AnalyzePeriodChange(before, after, indexName, thresholds), px)
            == [d, Thresholds.Classify(EffectiveThresholds(thresholds, DeltaName(indexName)), d) as real]
  {
    SelectValue(before, indexName, px);
    SelectValue(after, indexName, px);
    var delta := Delta(before, after, indexName);
    var d := BandValue(after, indexName, px) - BandValue(before, indexName, px);
    assert Eval(Subtract(Select(after, indexName), Select(before, indexName)), px) == [d];
    assert Defined(delta) && Eval(delta, px) == [d];
    var t := EffectiveThresholds(thresholds, DeltaName(indexName));
    assert ClassifyChange(delta, thresholds, DeltaName(indexName)) == Classified(delta, t);
    assert Eval(Classified(delta, t), px) == [Thresholds.Classify(t, d) as real];
  }

  // ---------------------------------------------------------------------------
  // create_change_analysis
  // ---------------------------------------------------------------------------

  /** Key of the comparison of period `b` against period `a`. */
  function PairKey(a: string, b: string): (k: string)
    ensures |k| == |a| + 4 + |b| && k[|a| + 4..] == b
  {
    a + "_to_" + b
  }

  /** Comparisons against the same period have different keys for different periods. */
  lemma {:induction false} PairKeyInjective(a: string, b1: string, b2: string)
    ensures PairKey(a, b1) == PairKey(a, b2) ==> b1 == b2
  {
    if PairKey(a, b1) == PairKey(a, b2) {
      var n := |a + "_to_"|;
      assert b1 == PairKey(a, b1)[n..];
      assert b2 == PairKey(a, b2)[n..];
    }
  }

  /** The per-index results for one pair of composites, in index order. */
  function PeriodChanges(baseline: Image, composite: Image, indices: seq<string>): (r: seq<Image>)
    ensures |r| == |indices|
    decreases |indices|
  {
    if indices == [] then []
    else PeriodChanges(baseline, composite, indices[..|indices| - 1])
         + [AnalyzePeriodChange(baseline, composite, indices[|indices| - 1])]
  }

  function ComparisonProps(reference: string, period: string, indices: seq<string>): map<string, Prop> {
    map["reference_period" := Text(reference), "comparison_period" := Text(period), "indices" := TextList(indices)]
  }

  /** One entry of `create_change_analysis`. */
  function Comparison(composites: map<string, Image>, reference: string, period: string, indices: seq<string>): Image
    requires reference in composites && period in composites && |indices| >= 1
  {
    WithProps(Combine(PeriodChanges(composites[reference], composites[period], indices)),
              ComparisonProps(reference, period, indices))
  }

  /** `vals[p]` for each period `p` in `done` other than the reference, under the key `reference_to_p`. */
  function Rekey(reference: string, done: set<string>, vals: map<string, Image>): map<string, Image>
    requires done <= vals.Keys
  {
    map p | p in done && p != reference :: PairKey(reference, p) := vals[p]
  }

  /** Every period's comparison against the reference. */
  function ComparisonValues(composites: map<string, Image>, reference: string, indices: seq<string>): (m: map<string, Image>)
    requires reference in composites && |indices| >= 1
    ensures m.Keys == composites.Keys
  {
    map p | p in composites :: Comparison(composites, reference, p, indices)
  }

  /** The comparisons for the periods in `done` other than the reference. */
  function ComparisonsFor(composites: map<string, Image>, reference: string, indices: seq<string>,
                          done: set<string>): (m: map<string, Image>)
    requires reference in composites && done <= composites.Keys && |indices| >= 1
  {
    Rekey(reference, done, ComparisonValues(composites, reference, indices))
  }

  /** What `create_change_analysis` computes, once the reference is known to be present. */
  function ChangeAnalysis(composites: map<string, Image>, reference: string, indices: seq<string>): Result<map<string, Image>>
    requires reference in composites
  {
    if |indices| == 0 then
      if exists p :: p in composites && p != reference then Err(IndexError(ListIndexOutOfRange))
      else Ok(map[])
    else Ok(ComparisonsFor(composites, reference, indices, composites.Keys))
  }

  function MissingReference(reference: string): Error {
    ValueError("Reference period '" + reference + "' not in composites")
  }

  /** `create_change_analysis` */
  method CreateChangeAnalysis(composites: map<string, Image>, indices: Option<seq<string>>,
                              reference: string := "1990s") returns (r: Result<map<string, Image>>)
    ensures reference !in composites ==> r == Err(MissingReference(reference))
    ensures reference in composites ==> r == ChangeAnalysis(composites, reference, Config.IndicesOrDefault(indices))
  {
    var idx := Config.IndicesOrDefault(indices);
    if reference !in composites {
      return Err(MissingReference(reference));
    }
    r := CompareAll(composites, reference, idx);
  }

  /** The loop of `create_change_analysis` over the periods, once the reference is known to be present. */
  method CompareAll(composites: map<string, Image>, reference: string, idx: seq<string>) returns (r: Result<map<string, Image>>)
    requires reference in composites
    ensures r == ChangeAnalysis(composites, reference, idx)
  {
    var changeImages: map<string, Image> := map[];
    var remaining := composites.Keys;
    ghost var done: set<string> := {};
    ghost var vals: map<string, Image> := if |idx| >= 1 then ComparisonValues(composites, reference, idx) else composites;
    while remaining != {}
      invariant remaining <= composites.Keys && done == composites.Keys - remaining
      invariant forall p :: p in done && p != reference ==> |idx| >= 1
      invariant changeImages == Rekey(reference, done, vals)
      decreases remaining
    {
      var period :| period in remaining;
      var next := CompareNext(composites, reference, idx, period, changeImages, done, vals);
      if next.Err? {
        assert period in composites && period != reference;
        return Err(next.error);
      }
      changeImages := next.value;
      remaining := remaining - {period};
      done := done + {period};
    }
    assert done == composites.Keys;
    if |idx| == 0 {
      RekeyEmpty(reference, done, vals);
    }
    r := Ok(changeImages);
  }

  /** One pass of that loop: the comparison for `period` added under its key (nothing for the reference
      itself), or the error it raises. */
  method CompareNext(composites: map<string, Image>, reference: string, idx: seq<string>, period: string,
                     changeImages: map<string, Image>, ghost done: set<string>, ghost vals: map<string, Image>)
    returns (r: Result<map<string, Image>>)
    requires reference in composites && period in composites && done <= composites.Keys
    requires vals == (if |idx| >= 1 then ComparisonValues(composites, reference, idx) else composites)
    requires changeImages == Rekey(reference, done, vals)
    ensures r.Err? ==> |idx| == 0 && period != reference && r.error == IndexError(ListIndexOutOfRange)
    ensures r.Ok? ==> r.value == Rekey(reference, done + {period}, vals)
    ensures r.Ok? && period != reference ==> |idx| >= 1
  {
    if period == reference {
      RekeySkipsReference(reference, done, vals);
      return Ok(changeImages);
    }
    var comparison := ComparePeriod(composites, reference, period, idx);
    if comparison.Err? {
      return Err(comparison.error);
    }
    assert vals[period] == comparison.value;
    RekeyStep(reference, done, vals, period);
    r := Ok(changeImages[PairKey(reference, period) := comparison.value]);
  }

  /** The body of the loop of `create_change_analysis` for one non-reference period. */
  method ComparePeriod(composites: map<string, Image>, reference: string, period: string, indices: seq<string>)
    returns (r: Result<Image>)
    requires reference in composites && period in composites
    ensures |indices| == 0 ==> r == Err(IndexError(ListIndexOutOfRange))
    ensures |indices| >= 1 ==> r == Ok(Comparison(composites, reference, period, indices))
  {
    var periodChanges := AnalyzeAll(composites[reference], composites[period], indices);
    if |periodChanges| == 0 {
      return Err(IndexError(ListIndexOutOfRange));
    }
    var combined := CombineAll(periodChanges);
    combined := WithProps(combined, ComparisonProps(reference, period, indices));
    r := Ok(combined);
  }

  /** The inner loop of `create_change_analysis`: one analysis per index, in index order. */
  method AnalyzeAll(baseline: Image, composite: Image, indices: seq<string>) returns (periodChanges: seq<Image>)
    ensures periodChanges == PeriodChanges(baseline, composite, indices)
  {
    periodChanges := [];
    var i := 0;
    while i < |indices|
      invariant 0 <= i <= |indices|
      invariant periodChanges == PeriodChanges(baseline, composite, indices[..i])
    {
      PeriodChangesStep(baseline, composite, indices, i);
      periodChanges := periodChanges + [AnalyzePeriodChange(baseline, composite, indices[i])];
      i := i + 1;
    }
    assert indices[..i] == indices;
  }

  lemma PeriodChangesStep(baseline: Image, composite: Image, indices: seq<string>, i: nat)
    requires i < |indices|
    ensures PeriodChanges(baseline, composite, indices[..i + 1])
         == PeriodChanges(baseline, composite, indices[..i]) + [AnalyzePeriodChange(baseline, composite, indices[i])]
  {
    assert indices[..i + 1][..i] == indices[..i];
    assert indices[..i + 1][i] == indices[i];
  }

  lemma RekeyEmpty(reference: string, done: set<string>, vals: map<string, Image>)
    requires done <= vals.Keys && forall p :: p in done ==> p == reference
    ensures Rekey(reference, done, vals) == map[]
  {
  }

  lemma RekeySkipsReference(reference: string, done: set<string>, vals: map<string, Image>)
    requires done <= vals.Keys && reference in vals
    ensures Rekey(reference, done + {reference}, vals) == Rekey(reference, done, vals)
  {
  }

  /** Rekeying reads only the periods in `done` other than the reference. */
  lemma RekeyFrame(reference: string, done: set<string>, vals1: map<string, Image>, vals2: map<string, Image>)
    requires done <= vals1.Keys && done <= vals2.Keys
    requires forall p :: p in done && p != reference ==> vals1[p] == vals2[p]
    ensures Rekey(reference, done, vals1) == Rekey(reference, done, vals2)
  {
  }

  lemma {:induction false} RekeyStep(reference: string, done: set<string>, vals: map<string, Image>, period: string)
    requires done <= vals.Keys && period in vals && period != reference
    ensures Rekey(reference, done + {period}, vals) == Rekey(reference, done, vals)[PairKey(reference, period) := vals[period]]
  {
    var a := Rekey(reference, done + {period}, vals);
    var b := Rekey(reference, done, vals)[PairKey(reference, period) := vals[period]];
    forall k | k in a
      ensures k in b && a[k] == b[k]
    {
      var p :| p in done + {period} && p != reference && k == PairKey(reference, p);
      PairKeyInjective(reference, p, period);
    }
    assert a.Keys == b.Keys;
  }

  /** Rekeying keeps one key per period other than the reference, and never the reference's own key. */
  lemma {:induction false} RekeyKeys(reference: string, done: set<string>, vals: map<string, Image>)
    requires done <= vals.Keys
    ensures forall p :: p in done && p != reference ==> PairKey(reference, p) in Rekey(reference, done, vals)
    ensures forall k :: k in Rekey(reference, done, vals) ==>
              exists p :: p in done && p != reference && k == PairKey(reference, p)
    ensures PairKey(reference, reference) !in Rekey(reference, done, vals)
    ensures |Rekey(reference, done, vals)| == |done - {reference}|
  {
    var m := Rekey(reference, done, vals);
    var others := done - {reference};
    forall p1, p2 | p1 in others && p2 in others && PairKey(reference, p1) == PairKey(reference, p2)
      ensures p1 == p2
    {
      PairKeyInjective(reference, p1, p2);
    }
    ImageOfInjective(others, reference);
    assert m.Keys == set p | p in others :: PairKey(reference, p);
  }

  /** The comparison keys are exactly `reference_to_p` for the other periods: one per other period,
      never a comparison of the reference with itself. */
  lemma {:induction false} ComparisonKeys(composites: map<string, Image>, reference: string, indices: seq<string>)
    requires reference in composites && |indices| >= 1
    ensures ChangeAnalysis(composites, reference, indices).Ok?
    ensures forall p :: p in composites && p != reference ==> PairKey(reference, p) in ChangeAnalysis(composites, reference, indices).value
    ensures forall k :: k in ChangeAnalysis(composites, reference, indices).value ==>
              exists p :: p in composites && p != reference && k == PairKey(reference, p)
    ensures PairKey(reference, reference) !in ChangeAnalysis(composites, reference, indices).value
  {
    var vals := ComparisonValues(composites, reference, indices);
    ChangeAnalysisIsRekey(composites, reference, indices);
    RekeyKeys(reference, composites.Keys, vals);
  }

  /** One comparison per period other than the reference. */
  lemma {:induction false} ComparisonCount(composites: map<string, Image>, reference: string, indices: seq<string>)
    requires reference in composites && |indices| >= 1
    ensures ChangeAnalysis(composites, reference, indices).Ok?
    ensures |ChangeAnalysis(composites, reference, indices).value| == |composites| - 1
  {
    var vals := ComparisonValues(composites, reference, indices);
    ChangeAnalysisIsRekey(composites, reference, indices);
    RekeyKeys(reference, composites.Keys, vals);
    RemoveOne(composites.Keys, reference);
  }

  lemma ChangeAnalysisIsRekey(composites: map<string, Image>, reference: string, indices: seq<string>)
    requires reference in composites && |indices| >= 1
    ensures ChangeAnalysis(composites, reference, indices)
         == Ok(Rekey(reference, composites.Keys, ComparisonValues(composites, reference, indices)))
  {
  }

  lemma RemoveOne(s: set<string>, x: string)
    requires x in s
    ensures |s - {x}| == |s| - 1
  {
    assert s == (s - {x}) + {x};
  }

  lemma {:induction false} ImageOfInjective(others: set<string>, reference: string)
    requires forall p1, p2 :: p1 in others && p2 in others && PairKey(reference, p1) == PairKey(reference, p2) ==> p1 == p2
    ensures |set p | p in others :: PairKey(reference, p)| == |others|
    decreases |others|
  {
    if others != {} {
      var x :| x in others;
      var rest := others - {x};
      ImageOfInjective(rest, reference);
      var keys := set p | p in others :: PairKey(reference, p);
      var restKeys := set p | p in rest :: PairKey(reference, p);
      assert keys == restKeys + {PairKey(reference, x)};
      assert PairKey(reference, x) !in restKeys;
    }
  }

  /** Each entry carries one delta and one class band per index, in index order, and the three metadata properties. */
  lemma {:induction false} ComparisonContents(composites: map<string, Image>, reference: string, period: string,
                                              indices: seq<string>)
    requires reference in composites && period in composites && |indices| >= 1
    ensures Bands(Comparison(composites, reference, period, indices)) == ComparisonBands(indices)
    ensures Props(Comparison(composites, reference, period, indices))
         == map["reference_period" := Text(reference), "comparison_period" := Text(period), "indices" := TextList(indices)]
  {
    PeriodChangesBands(composites[reference], composites[period], indices);
    CombineBands(PeriodChanges(composites[reference], composites[period], indices), indices);
  }

  lemma {:induction false} PeriodChangesBands(baseline: Image, composite: Image, indices: seq<string>)
    ensures forall i :: 0 <= i < |indices| ==>
              Bands(PeriodChanges(baseline, composite, indices)[i]) == [DeltaName(indices[i]), ChangeClassBand]
    decreases |indices|
  {
    if indices != [] {
      PeriodChangesBands(baseline, composite, indices[..|indices| - 1]);
    }
  }

  /** `["d" + i, "change_class"]` for each index `i`, concatenated. */
  function ComparisonBands(indices: seq<string>): seq<string>
    decreases |indices|
  {
    if indices == [] then []
    else ComparisonBands(indices[..|indices| - 1]) + [DeltaName(indices[|indices| - 1]), ChangeClassBand]
  }

  lemma {:induction false} CombineBands(changes: seq<Image>, indices: seq<string>)
    requires |changes| == |indices| >= 1
    requires forall i :: 0 <= i < |changes| ==> Bands(changes[i]) == [DeltaName(indices[i]), ChangeClassBand]
    ensures Bands(Combine(changes)) == ComparisonBands(indices)
    decreases |changes|
  {
    if |changes| == 1 {
      assert indices[..0] == [];
    } else {
      CombineBands(changes[..|changes| - 1], indices[..|indices| - 1]);
    }
  }

  /** With no indices, any period besides the reference makes `period_changes[0]` fail. */
  lemma EmptyIndicesFail(composites: map<string, Image>, reference: string, other: string)
    requires reference in composites && other in composites && other != reference
    ensures ChangeAnalysis(composites, reference, []) == Err(IndexError(ListIndexOutOfRange))
  {
  }

  // ---------------------------------------------------------------------------
  // create_sequential_change
  // ---------------------------------------------------------------------------

  /** Whether the consecutive pair starting at position `i` of `order` has both composites. */
  predicate PairPresent(composites: map<string, Image>, order: seq<string>, i: int) {
    0 <= i < |order| - 1 && order[i] in composites && order[i + 1] in composites
  }

  /** The dictionary after the first `n` pairs of `order`: a later pair with the same key overwrites. */
  function SequentialChanges(composites: map<string, Image>, order: seq<string>, indexName: string, n: nat): map<string, Image>
    requires n <= if |order| == 0 then 0 else |order| - 1
  {
    if n == 0 then map[]
    else
      var m := SequentialChanges(composites, order, indexName, n - 1);
      var i := n - 1;
      if PairPresent(composites, order, i) then
        m[PairKey(order[i], order[i + 1]) := AnalyzePeriodChange(composites[order[i]], composites[order[i + 1]], indexName)]
      else m
  }

  function PairCount(order: seq<string>): nat {
    if |order| == 0 then 0 else |order| - 1
  }

  /** `create_sequential_change` */
  method CreateSequentialChange(composites: map<string, Image>, order: seq<string>, indexName: string := "ndvi")
    returns (r: map<string, Image>)
    ensures r == SequentialChanges(composites, order, indexName, PairCount(order))
  {
    r := map[];
    var i := 0;
    while i < |order| - 1
      invariant 0 <= i <= PairCount(order)
      invariant r == SequentialChanges(composites, order, indexName, i)
    {
      var beforePeriod := order[i];
      var afterPeriod := order[i + 1];
      if beforePeriod in composites && afterPeriod in composites {
        var change := AnalyzePeriodChange(composites[beforePeriod], composites[afterPeriod], indexName);
        r := r[PairKey(beforePeriod, afterPeriod) := change];
      }
      i := i + 1;
    }
  }

  /** The keys are exactly the keys of the consecutive pairs whose periods are both present;
      pairs with a missing period are skipped. */
  lemma {:induction false} SequentialChangesKeys(composites: map<string, Image>, order: seq<string>, indexName: string, n: nat)
    requires n <= PairCount(order)
    ensures forall k :: k in SequentialChanges(composites, order, indexName, n) <==>
              exists i :: 0 <= i < n && PairPresent(composites, order, i) && k == PairKey(order[i], order[i + 1])
  {
    if n > 0 {
      SequentialChangesKeys(composites, order, indexName, n - 1);
    }
  }

  /** The entry of a present pair is that pair's analysis unless a later pair has the same key. */
  lemma {:induction false} SequentialChangesValues(composites: map<string, Image>, order: seq<string>, indexName: string,
                                                   n: nat, i: nat)
    requires n <= PairCount(order) && i < n && PairPresent(composites, order, i)
    requires forall j :: i < j < n && PairPresent(composites, order, j) ==>
               PairKey(order[j], order[j + 1]) != PairKey(order[i], order[i + 1])
    ensures PairKey(order[i], order[i + 1]) in SequentialChanges(composites, order, indexName, n)
    ensures SequentialChanges(composites, order, indexName, n)[PairKey(order[i], order[i + 1])]
         == AnalyzePeriodChange(composites[order[i]], composites[order[i + 1]], indexName)
  {
    if i < n - 1 {
      SequentialChangesValues(composites, order, indexName, n - 1, i);
    }
  }

  /** Fewer than two periods give no comparison. */
  lemma ShortOrderEmpty(composites: map<string, Image>, order: seq<string>, indexName: string)
    requires |order| < 2
    ensures SequentialChanges(composites, order, indexName, PairCount(order)) == map[]
  {
  }
}
