/** The older copy of the change classifier. It builds the class image as a list of
    `where` overwrites applied to a constant start value; here that list is data and
    its application a fold, and the result is shown to agree with the engine's
    classifier for every set of thresholds. The rest of the older copy (threshold
    lookup, comparison builders, class information) is the same code as the engine's
    and is modelled by the same members. */
module LegacyChange {
  import Thresholds

  /** `classified.where(test, value)`: pixels passing `test` take `value`. */
  datatype Overwrite = Overwrite(test: real -> bool, value: int)

  /** Applies the overwrites left to right to one pixel that starts at `start`. */
  function Cascade(start: int, steps: seq<Overwrite>, d: real): int
    decreases |steps|
  {
    if steps == [] then start
    else Cascade(if steps[0].test(d) then steps[0].value else start, steps[1..], d)
  }

  /** Reference definition: the value of the last overwrite whose test holds, `start` when none does. */
  function LastMatch(start: int, steps: seq<Overwrite>, d: real): int
    decreases |steps|
  {
    if steps == [] then start
    else if steps[|steps| - 1].test(d) then steps[|steps| - 1].value
    else LastMatch(start, steps[..|steps| - 1], d)
  }

  lemma {:induction false} CascadeSnoc(start: int, steps: seq<Overwrite>, last: Overwrite, d: real)
    ensures Cascade(start, steps + [last], d) == if last.test(d) then last.value else Cascade(start, steps, d)
    decreases |steps|
  {
    if steps != [] {
      var next := if steps[0].test(d) then steps[0].value else start;
      assert (steps + [last])[1..] == steps[1..] + [last];
      CascadeSnoc(next, steps[1..], last, d);
    }
  }

  /** Applying the overwrites in order leaves the value of the last one that matches. */
  lemma {:induction false} CascadeIsLastMatch(start: int, steps: seq<Overwrite>, d: real)
    ensures Cascade(start, steps, d) == LastMatch(start, steps, d)
    decreases |steps|
  {
    if steps != [] {
      var init := steps[..|steps| - 1];
      assert steps == init + [steps[|steps| - 1]];
      CascadeSnoc(start, init, steps[|steps| - 1], d);
      CascadeIsLastMatch(start, init, d);
    }
  }

  /** The four overwrites of `ThresholdClassifier.classify`, in the order they are applied. */
  function Steps(t: Thresholds.ChangeThresholds): seq<Overwrite> {
    [ Overwrite(d => d <= t.strongLoss, 1),
      Overwrite(d => t.strongLoss < d && d <= t.moderateLoss, 2),
      Overwrite(d => t.moderateGain <= d && d < t.strongGain, 4),
      Overwrite(d => d >= t.strongGain, 5) ]
  }

  /** `ThresholdClassifier.classify` of the older copy at one pixel; it agrees with the engine's classifier. */
  function Classify(t: Thresholds.ChangeThresholds, d: real): (c: int)
    ensures 1 <= c <= 5
    ensures c == Thresholds.Classify(t, d)
  {
    var s := Steps(t);
    CascadeIsLastMatch(3, s, d);
    assert s[..3][..2][..1][..0] == [];
    Cascade(3, s, d)
  }
}
