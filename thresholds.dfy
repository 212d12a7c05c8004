/** Change thresholds and the per-pixel threshold classifier. The classifier
    starts every pixel at class 3 and overwrites it by four `where` steps in a
    fixed order; per pixel that is a chain of conditional overwrites. */
module Thresholds {
  import Config

  /** `ChangeThresholds`: six numbers, accepted in any order. */
  datatype ChangeThresholds = ChangeThresholds(strongLoss: real, moderateLoss: real, stableMin: real,
                                               stableMax: real, moderateGain: real, strongGain: real)

  function FromRow(r: Config.ThresholdRow): ChangeThresholds {
    ChangeThresholds(r.strongLoss, r.moderateLoss, r.stableMin, r.stableMax, r.moderateGain, r.strongGain)
  }

  const Dndvi: ChangeThresholds := ChangeThresholds(-0.15, -0.05, -0.05, 0.05, 0.05, 0.15)
  const Dnbr: ChangeThresholds := ChangeThresholds(-0.20, -0.10, -0.10, 0.10, 0.10, 0.20)

  /** `ChangeThresholds.from_config`: the `"d" + name` row when there is one, the dndvi row otherwise.
      Only "nbr" has a row of its own besides "ndvi". */
  function FromConfig(indexName: string): (t: ChangeThresholds)
    ensures indexName == "nbr" ==> t == Dnbr
    ensures indexName != "nbr" ==> t == Dndvi
  {
    var table := Config.ChangeThresholdTable();
    var key := "d" + indexName;
    assert indexName == "nbr" ==> key == "dnbr";
    if key in table then
      assert key == "dndvi" || key == "dnbr";
      assert key == "dnbr" ==> key[1..] == "nbr";
      FromRow(table[key])
    else FromRow(table["dndvi"])
  }

  // The four overwrite conditions, in the order the classifier applies them.
  predicate StrongLoss(t: ChangeThresholds, d: real) { d <= t.strongLoss }
  predicate ModerateLoss(t: ChangeThresholds, d: real) { t.strongLoss < d && d <= t.moderateLoss }
  predicate ModerateGain(t: ChangeThresholds, d: real) { t.moderateGain <= d && d < t.strongGain }
  predicate StrongGain(t: ChangeThresholds, d: real) { d >= t.strongGain }

  /** `ThresholdClassifier.classify` at one pixel with delta value `d`. */
  function Classify(t: ChangeThresholds, d: real): (c: int)
    ensures 1 <= c <= 5
  {
    var c0 := 3;
    var c1 := if StrongLoss(t, d) then 1 else c0;
    var c2 := if ModerateLoss(t, d) then 2 else c1;
    var c3 := if ModerateGain(t, d) then 4 else c2;
    var c4 := if StrongGain(t, d) then 5 else c3;
    c4
  }

  /** Loss bounds below gain bounds, each pair strictly ordered. */
  predicate Ordered(t: ChangeThresholds) {
    t.strongLoss < t.moderateLoss < t.moderateGain < t.strongGain
  }

  /** Reference definition: the five classes as consecutive intervals of the delta, loss to gain. */
  function Band(t: ChangeThresholds, d: real): int {
    if d <= t.strongLoss then 1
    else if d <= t.moderateLoss then 2
    else if d < t.moderateGain then 3
    else if d < t.strongGain then 4
    else 5
  }

  /** For any thresholds, the last overwrite whose condition holds decides the class; with none, 3. */
  lemma LastMatchWins(t: ChangeThresholds, d: real)
    ensures StrongGain(t, d) ==> Classify(t, d) == 5
    ensures ModerateGain(t, d) && !StrongGain(t, d) ==> Classify(t, d) == 4
    ensures ModerateLoss(t, d) && !ModerateGain(t, d) && !StrongGain(t, d) ==> Classify(t, d) == 2
    ensures StrongLoss(t, d) && !ModerateLoss(t, d) && !ModerateGain(t, d) && !StrongGain(t, d)
            ==> Classify(t, d) == 1
    ensures !StrongLoss(t, d) && !ModerateLoss(t, d) && !ModerateGain(t, d) && !StrongGain(t, d)
            ==> Classify(t, d) == 3
  {
  }

  /** With unordered thresholds a pixel can meet a loss and a gain condition; the gain overwrite wins. */
  lemma UnorderedOverlap()
    ensures StrongLoss(ChangeThresholds(1.0, 2.0, 0.0, 0.0, -2.0, -1.0), 0.0)
    ensures StrongGain(ChangeThresholds(1.0, 2.0, 0.0, 0.0, -2.0, -1.0), 0.0)
    ensures Classify(ChangeThresholds(1.0, 2.0, 0.0, 0.0, -2.0, -1.0), 0.0) == 5
  {
  }

  /** Ordered thresholds make the four conditions mutually exclusive. */
  lemma AtMostOneCondition(t: ChangeThresholds, d: real)
    requires Ordered(t)
    ensures !(StrongLoss(t, d) && ModerateLoss(t, d))
    ensures !(StrongLoss(t, d) && ModerateGain(t, d)) && !(StrongLoss(t, d) && StrongGain(t, d))
    ensures !(ModerateLoss(t, d) && ModerateGain(t, d)) && !(ModerateLoss(t, d) && StrongGain(t, d))
    ensures !(ModerateGain(t, d) && StrongGain(t, d))
  {
  }

  /** With ordered thresholds the cascade is the interval classification. */
  lemma {:induction false} ClassifyMatchesBands(t: ChangeThresholds, d: real)
    requires Ordered(t)
    ensures Classify(t, d) == Band(t, d)
  {
    AtMostOneCondition(t, d);
  }

  /** With ordered thresholds a pixel is stable exactly when its delta lies strictly between the moderate bounds. */
  lemma {:induction false} StableIffBetween(t: ChangeThresholds, d: real)
    requires Ordered(t)
    ensures Classify(t, d) == 3 <==> t.moderateLoss < d < t.moderateGain
  {
    ClassifyMatchesBands(t, d);
  }

  /** With ordered thresholds a larger delta never gets a lower class. */
  lemma {:induction false} ClassifyMonotone(t: ChangeThresholds, d1: real, d2: real)
    requires Ordered(t) && d1 <= d2
    ensures Classify(t, d1) <= Classify(t, d2)
  {
    ClassifyMatchesBands(t, d1);
    ClassifyMatchesBands(t, d2);
  }

  /** The stable bounds are never read. */
  lemma StableBoundsIgnored(t: ChangeThresholds, d: real, lo: real, hi: real)
    ensures Classify(t.(stableMin := lo, stableMax := hi), d) == Classify(t, d)
  {
  }

  /** Boundary values with the dndvi row: the loss bounds are inclusive, the gain bounds are lower-inclusive. */
  lemma DndviBoundaries()
    ensures Classify(Dndvi, -0.20) == 1 && Classify(Dndvi, -0.15) == 1
    ensures Classify(Dndvi, -0.10) == 2 && Classify(Dndvi, -0.05) == 2
    ensures Classify(Dndvi, 0.0) == 3
    ensures Classify(Dndvi, 0.05) == 4 && Classify(Dndvi, 0.10) == 4
    ensures Classify(Dndvi, 0.15) == 5
  {
  }

  /** Both configured rows are ordered. */
  lemma ConfiguredRowsOrdered(indexName: string)
    ensures Ordered(FromConfig(indexName))
  {
  }
}
