/** Adding index bands to an image and computing their change between two
    images, against a snapshot of the index registry. */
module IndexConvenience {
  import opened Common
  import Config
  import opened Imagery
  import opened IndexBase

  /** The error for an unregistered name; it lists the registered names in order. */
  function UnknownIndex(name: string, available: seq<string>): Error {
    ValueError("Unknown index: " + name + ". Available: " + Join(", ", available))
  }

  /** `add_index`: the registered index's band added to the image, or ValueError for an unknown name. */
  function AddIndex(table: map<string, SpectralIndex>, names: seq<string>, img: Image, name: string): (r: Result<Image>)
    ensures r.Ok? <==> name in table
    ensures r.Ok? ==> Bands(r.value) == Bands(img) + [table[name].name]
    ensures r.Ok? && KeyedByName(table) ==> Bands(r.value) == Bands(img) + [name]
    ensures r.Ok? && Defined(img) ==> Defined(r.value)
    ensures r.Err? ==> r.error == UnknownIndex(name, names)
  {
    if name !in table then Err(UnknownIndex(name, names))
    else Ok(Calculate(table[name], img))
  }

  /** `add_all_indices` on an explicit list: `add_index` folded left to right, stopping at the first failure. */
  function AddAll(table: map<string, SpectralIndex>, names: seq<string>, img: Image, indices: seq<string>): Result<Image>
    decreases |indices|
  {
    if indices == [] then Ok(img)
    else
      match AddAll(table, names, img, indices[..|indices| - 1])
      case Err(e) => Err(e)
      case Ok(acc) => AddIndex(table, names, acc, indices[|indices| - 1])
  }

  /** All names registered: the fold succeeds, keeps the input bands in front and adds one band per
      name, in list order; any name unregistered: it fails. */
  lemma {:induction false} AddAllOutcome(table: map<string, SpectralIndex>, names: seq<string>, img: Image, indices: seq<string>)
    requires KeyedByName(table)
    ensures AddAll(table, names, img, indices).Ok? <==> forall i :: 0 <= i < |indices| ==> indices[i] in table
    ensures AddAll(table, names, img, indices).Ok? ==> Bands(AddAll(table, names, img, indices).value) == Bands(img) + indices
    ensures AddAll(table, names, img, indices).Ok? && Defined(img) ==> Defined(AddAll(table, names, img, indices).value)
    decreases |indices|
  {
    if indices != [] {
      var prefix := indices[..|indices| - 1];
      AddAllOutcome(table, names, img, prefix);
      assert prefix + [indices[|indices| - 1]] == indices;
      assert forall i :: 0 <= i < |prefix| ==> prefix[i] == indices[i];
    }
  }

  /** The failure is the error for the first unregistered name. */
  lemma {:induction false} AddAllFirstError(table: map<string, SpectralIndex>, names: seq<string>, img: Image, indices: seq<string>, j: nat)
    requires j < |indices| && indices[j] !in table
    requires forall i :: 0 <= i < j ==> indices[i] in table
    ensures AddAll(table, names, img, indices) == Err(UnknownIndex(indices[j], names))
    decreases |indices|
  {
    var prefix := indices[..|indices| - 1];
    if j < |indices| - 1 {
      AddAllFirstError(table, names, img, prefix, j);
    } else {
      AddAllPrefixOk(table, names, img, prefix);
    }
  }

  lemma {:induction false} AddAllPrefixOk(table: map<string, SpectralIndex>, names: seq<string>, img: Image, indices: seq<string>)
    requires forall i :: 0 <= i < |indices| ==> indices[i] in table
    ensures AddAll(table, names, img, indices).Ok?
    decreases |indices|
  {
    if indices != [] {
      AddAllPrefixOk(table, names, img, indices[..|indices| - 1]);
    }
  }

  /** The first name of the list that is not registered, if any. */
  function FirstUnknown(table: map<string, SpectralIndex>, indices: seq<string>): (r: Option<string>)
    ensures r.Some? ==> r.value in indices && r.value !in table
    ensures r.None? <==> forall i :: 0 <= i < |indices| ==> indices[i] in table
    decreases |indices|
  {
    if indices == [] then None
    else
      var prefix := indices[..|indices| - 1];
      var last := indices[|indices| - 1];
      assert indices == prefix + [last];
      match FirstUnknown(table, prefix)
      case Some(name) => Some(name)
      case None => if last in table then None else Some(last)
  }

  /** Whether the fold fails, and with which error, depends on the names alone and never on the image:
      it fails exactly when some name is unregistered, with the error for the first such name. */
  lemma {:induction false} AddAllError(table: map<string, SpectralIndex>, names: seq<string>, img: Image, indices: seq<string>)
    ensures AddAll(table, names, img, indices).Err? <==> FirstUnknown(table, indices).Some?
    ensures AddAll(table, names, img, indices).Err? ==>
              AddAll(table, names, img, indices).error == UnknownIndex(FirstUnknown(table, indices).value, names)
    decreases |indices|
  {
    if indices != [] {
      AddAllError(table, names, img, indices[..|indices| - 1]);
    }
  }

  /** An empty list returns the input image. */
  lemma EmptyListKeepsImage(table: map<string, SpectralIndex>, names: seq<string>, img: Image)
    ensures AddAll(table, names, img, []) == Ok(img)
  {
  }

  /** `add_all_indices`: starts from the image and adds each listed index in turn, the default list
      when none is given; returns the first error met. */
  method AddAllIndices(reg: IndexRegistry, img: Image, indices: Option<seq<string>>) returns (r: Result<Image>)
    ensures r == AddAll(reg.table, reg.names, img, Config.IndicesOrDefault(indices))
  {
    var names := Config.IndicesOrDefault(indices);
    var result := img;
    var i := 0;
    while i < |names|
      invariant 0 <= i <= |names|
      invariant AddAll(reg.table, reg.names, img, names[..i]) == Ok(result)
    {
      assert names[..i + 1][..i] == names[..i];
      var step := AddIndex(reg.table, reg.names, result, names[i]);
      if step.Err? {
        AddAllErrorSticks(reg.table, reg.names, img, names, i + 1);
        assert names[..|names|] == names;
        return step;
      }
      result := step.value;
      i := i + 1;
    }
    assert names[..i] == names;
    r := Ok(result);
  }

  /** Once the fold over a prefix has failed, the fold over the whole list gives the same error. */
  lemma {:induction false} AddAllErrorSticks(table: map<string, SpectralIndex>, names: seq<string>, img: Image, indices: seq<string>, n: nat)
    requires n <= |indices| && AddAll(table, names, img, indices[..n]).Err?
    ensures AddAll(table, names, img, indices) == AddAll(table, names, img, indices[..n])
    decreases |indices| - n
  {
    if n < |indices| {
      assert indices[..n + 1][..n] == indices[..n];
      AddAllErrorSticks(table, names, img, indices, n + 1);
    } else {
      assert indices[..n] == indices;
    }
  }

  /** `add_ndvi` ... `add_ndmi` on the loaded registry: the named built-in index's band is added. */
  lemma BuiltinShortcuts(img: Image)
    ensures AddIndex(BuiltinTable, BuiltinNames, img, "ndvi") == Ok(Calculate(Ndvi, img))
    ensures AddIndex(BuiltinTable, BuiltinNames, img, "nbr") == Ok(Calculate(Nbr, img))
    ensures AddIndex(BuiltinTable, BuiltinNames, img, "ndwi") == Ok(Calculate(Ndwi, img))
    ensures AddIndex(BuiltinTable, BuiltinNames, img, "evi") == Ok(Calculate(Evi, img))
    ensures AddIndex(BuiltinTable, BuiltinNames, img, "ndmi") == Ok(Calculate(Ndmi, img))
  {
  }

  /** `calculate_delta_index`: one band "d" + name holding after − before wherever both images carry the band. */
  function CalculateDeltaIndex(before: Image, after: Image, name: string): (r: Image)
    ensures Bands(r) == [DeltaName(name)]
  {
    Delta(before, after, name)
  }

  /** The delta's value is the difference of the two images' index values. */
  lemma DeltaIndexValue(before: Image, after: Image, name: string, px: Sample)
    requires Defined(before) && Defined(after) && name in Bands(before) && name in Bands(after)
    ensures Defined(CalculateDeltaIndex(before, after, name))
    ensures Eval(CalculateDeltaIndex(before, after, name), px) == [BandValue(after, name, px) - BandValue(before, name, px)]
  {
    DeltaValue(before, after, name, px);
  }

  /** The per-index deltas, in list order. */
  function DeltaList(before: Image, after: Image, indices: seq<string>): (r: seq<Image>)
    ensures |r| == |indices|
    ensures forall i :: 0 <= i < |indices| ==> r[i] == CalculateDeltaIndex(before, after, indices[i])
  {
    seq(|indices|, i requires 0 <= i < |indices| => CalculateDeltaIndex(before, after, indices[i]))
  }

  /** The band names "d" + name, in list order. */
  function DeltaNames(indices: seq<string>): (r: seq<string>)
    ensures |r| == |indices|
    ensures forall i :: 0 <= i < |indices| ==> r[i] == DeltaName(indices[i])
  {
    seq(|indices|, i requires 0 <= i < |indices| => DeltaName(indices[i]))
  }

  /** `calculate_delta_indices` on an explicit list: the deltas combined in order; for an empty list
      taking the first delta fails with IndexError. */
  function DeltaIndices(before: Image, after: Image, indices: seq<string>): Result<Image> {
    if indices == [] then Err(IndexError(ListIndexOutOfRange))
    else Ok(Combine(DeltaList(before, after, indices)))
  }

  /** The result has exactly the bands "d" + name, one per index, in list order; an empty list fails. */
  lemma {:induction false} DeltaIndicesBands(before: Image, after: Image, indices: seq<string>)
    ensures DeltaIndices(before, after, indices).Ok? <==> indices != []
    ensures indices == [] ==> DeltaIndices(before, after, indices) == Err(IndexError(ListIndexOutOfRange))
    ensures DeltaIndices(before, after, indices).Ok? ==> Bands(DeltaIndices(before, after, indices).value) == DeltaNames(indices)
  {
    if indices != [] {
      var ds := DeltaList(before, after, indices);
      CombineConcatBands(ds);
      ConcatDeltaBands(before, after, indices);
    }
  }

  lemma {:induction false} ConcatDeltaBands(before: Image, after: Image, indices: seq<string>)
    ensures ConcatBands(DeltaList(before, after, indices)) == DeltaNames(indices)
    decreases |indices|
  {
    if indices != [] {
      var prefix := indices[..|indices| - 1];
      ConcatDeltaBands(before, after, prefix);
      assert DeltaList(before, after, indices)[..|indices| - 1] == DeltaList(before, after, prefix);
      assert DeltaNames(indices) == DeltaNames(prefix) + [DeltaName(indices[|indices| - 1])];
    }
  }

  /** A single index yields its delta image itself. */
  lemma SingleIndexDelta(before: Image, after: Image, name: string)
    ensures DeltaIndices(before, after, [name]) == Ok(CalculateDeltaIndex(before, after, name))
  {
  }

  /** Where both images carry every listed band, the combined deltas are defined and band k holds
      the k-th index's after − before. */
  lemma {:induction false} DeltaIndicesValues(before: Image, after: Image, indices: seq<string>, px: Sample, k: nat)
    requires k < |indices|
    requires Defined(before) && Defined(after)
    requires forall i :: 0 <= i < |indices| ==> indices[i] in Bands(before) && indices[i] in Bands(after)
    ensures DeltaIndices(before, after, indices).Ok? && Defined(DeltaIndices(before, after, indices).value)
    ensures k < |Eval(DeltaIndices(before, after, indices).value, px)|
    ensures Eval(DeltaIndices(before, after, indices).value, px)[k]
         == BandValue(after, indices[k], px) - BandValue(before, indices[k], px)
  {
    var ds := DeltaList(before, after, indices);
    forall i | 0 <= i < |indices|
      ensures Defined(ds[i]) && SingleBand(ds[i])
    {
      DeltaIndexValue(before, after, indices[i], px);
    }
    CombineSingleBands(ds, px, k);
    DeltaIndexValue(before, after, indices[k], px);
  }

  /** `calculate_delta_indices`: builds the list of deltas, then combines them, the default list when none is given. */
  method CalculateDeltaIndices(before: Image, after: Image, indices: Option<seq<string>>) returns (r: Result<Image>)
    ensures r == DeltaIndices(before, after, Config.IndicesOrDefault(indices))
  {
    var names := Config.IndicesOrDefault(indices);
    var deltaBands: seq<Image> := [];
    for i := 0 to |names|
      invariant deltaBands == DeltaList(before, after, names[..i])
    {
      deltaBands := deltaBands + [CalculateDeltaIndex(before, after, names[i])];
    }
    assert names[..|names|] == names;
    if |deltaBands| == 0 {
      return Err(IndexError(ListIndexOutOfRange));
    }
    if |deltaBands| == 1 {
      return Ok(deltaBands[0]);
    }
    var result := CombineAll(deltaBands);
    r := Ok(result);
  }

  /** The band name of a relative change. */
  function RelativeName(name: string): string {
    "rel_d" + name
  }

  /** `calculate_relative_change`: (after − before) / before × 100, with a zero `before` replaced by 0.001. */
  function CalculateRelativeChange(before: Image, after: Image, name: string): (r: Image)
    ensures Bands(r) == [RelativeName(name)]
  {
    var b := Select(before, name);
    var a := Select(after, name);
    Rename(Scale(Divide(Subtract(a, b), ReplaceZero(b, 0.001)), 100.0), RelativeName(name))
  }

  /** The relative change is the percentage change over the before-value, or over 0.001 where that is zero;
      the divisor is never zero. */
  lemma RelativeChangeValue(before: Image, after: Image, name: string, px: Sample)
    requires Defined(before) && Defined(after) && name in Bands(before) && name in Bands(after)
    ensures var b := BandValue(before, name, px);
            var a := BandValue(after, name, px);
            var den := if b == 0.0 then 0.001 else b;
            den != 0.0 && Defined(CalculateRelativeChange(before, after, name))
            && Eval(CalculateRelativeChange(before, after, name), px) == [(a - b) / den * 100.0]
  {
    var b := BandValue(before, name, px);
    var a := BandValue(after, name, px);
    var den := if b == 0.0 then 0.001 else b;
    var diff := Subtract(Select(after, name), Select(before, name));
    var safe := ReplaceZero(Select(before, name), 0.001);
    RelativeParts(before, after, name, px);
    var q := Divide(diff, safe);
    QuotientValue(diff, safe, px, a - b, den);
    PercentValue(q, px, (a - b) / den, RelativeName(name));
    assert CalculateRelativeChange(before, after, name) == Rename(Scale(q, 100.0), RelativeName(name));
  }

  /** Multiplying a single band by 100 and renaming it. */
  lemma PercentValue(img: Image, px: Sample, x: real, newName: string)
    requires Defined(img) && SingleBand(img) && Eval(img, px) == [x]
    ensures Defined(Rename(Scale(img, 100.0), newName)) && Eval(Rename(Scale(img, 100.0), newName), px) == [x * 100.0]
  {
  }

  /** The difference and the zero-guarded divisor of a relative change. */
  lemma RelativeParts(before: Image, after: Image, name: string, px: Sample)
    requires Defined(before) && Defined(after) && name in Bands(before) && name in Bands(after)
    ensures var b := BandValue(before, name, px);
            var diff := Subtract(Select(after, name), Select(before, name));
            var safe := ReplaceZero(Select(before, name), 0.001);
            Defined(diff) && SingleBand(diff) && Eval(diff, px) == [BandValue(after, name, px) - b]
            && Defined(safe) && SingleBand(safe) && Eval(safe, px) == [if b == 0.0 then 0.001 else b]
  {
    SelectValue(before, name, px);
    SelectValue(after, name, px);
  }

  /** Dividing by a single band that is not zero at the pixel. */
  lemma QuotientValue(num: Image, den: Image, px: Sample, n: real, d: real)
    requires Defined(num) && Defined(den) && SingleBand(num) && SingleBand(den)
    requires Eval(num, px) == [n] && Eval(den, px) == [d] && d != 0.0
    ensures Defined(Divide(num, den)) && Eval(Divide(num, den), px) == [n / d]
  {
  }
}
