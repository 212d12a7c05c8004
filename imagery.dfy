/** Symbolic Earth Engine images. An image is the expression that builds it;
    what the system decides locally is which bands exist, what they are called
    and, for the operations it composes itself (select, subtract, rename,
    classify, ...), what value each band holds at a pixel. Values of opaque
    inputs (source images, median composites, spectral-index formulas) come from
    a caller-supplied sampling function. */
module Imagery {
  import Thresholds

  /** An area of interest (`ee.Geometry`), an opaque handle. */
  datatype Aoi = Aoi(id: nat)

  /** Values stored with `image.set(...)`. */
  datatype Prop = Text(text: string) | TextList(items: seq<string>)

  /** One sensor's image collection, filtered to an area, a date range and a cloud-cover limit,
      then cloud-masked, scaled and harmonized the way the sensor id selects. */
  datatype Collection = Collection(sensor: string, aoi: Aoi, start: string, end: string, cloudThreshold: real)

  datatype Image =
    | Source(id: nat, names: seq<string>)            // an image supplied from outside
    | MedianOf(merged: seq<Collection>, aoi: Aoi)    // `merged.median().clip(aoi)`
    | IndexBand(src: Image, name: string)            // a spectral-index formula over src, named `name`
    | Select(src: Image, band: string)
    | Subtract(left: Image, right: Image)
    | Divide(left: Image, right: Image)
    | Scale(src: Image, factor: real)                // `multiply(factor)`
    | ReplaceZero(src: Image, replacement: real)     // `src.where(src.eq(0), replacement)`
    | Rename(src: Image, name: string)
    | AddBands(first: Image, second: Image)
    | Classified(delta: Image, thresholds: Thresholds.ChangeThresholds)
    | WithProps(src: Image, props: map<string, Prop>)

  /** The harmonized band names of every composite. */
  const HarmonizedBands: seq<string> := ["blue", "green", "red", "nir", "swir1", "swir2"]

  /** The band name a classified image carries. */
  const ChangeClassBand: string := "change_class"

  /** Band names, in order. */
  function Bands(img: Image): seq<string> {
    match img
    case Source(_, names) => names
    case MedianOf(_, _) => HarmonizedBands
    case IndexBand(_, name) => [name]
    case Select(_, band) => [band]
    case Subtract(left, _) => Bands(left)
    case Divide(left, _) => Bands(left)
    case Scale(src, _) => Bands(src)
    case ReplaceZero(src, _) => Bands(src)
    case Rename(_, name) => [name]
    case AddBands(first, second) => Bands(first) + Bands(second)
    case Classified(_, _) => [ChangeClassBand]
    case WithProps(src, _) => Bands(src)
  }

  predicate SingleBand(img: Image) {
    |Bands(img)| == 1
  }

  /** The image can be computed: selected bands exist, arithmetic and renaming see one band. */
  predicate Defined(img: Image) {
    match img
    case Source(_, _) => true
    case MedianOf(_, _) => true
    case IndexBand(src, _) => Defined(src)
    case Select(src, band) => Defined(src) && band in Bands(src)
    case Subtract(left, right) => Defined(left) && Defined(right) && SingleBand(left) && SingleBand(right)
    case Divide(left, right) => Defined(left) && Defined(right) && SingleBand(left) && SingleBand(right)
    case Scale(src, _) => Defined(src) && SingleBand(src)
    case ReplaceZero(src, _) => Defined(src) && SingleBand(src)
    case Rename(src, _) => Defined(src) && SingleBand(src)
    case AddBands(first, second) => Defined(first) && Defined(second)
    case Classified(delta, _) => Defined(delta) && SingleBand(delta)
    case WithProps(src, _) => Defined(src)
  }

  /** Properties set on the image by its outermost `.set(...)` calls. */
  function Props(img: Image): map<string, Prop> {
    match img
    case WithProps(src, props) => Props(src) + props
    case _ => map[]
  }

  /** Position of the first band called `name`. */
  function IndexOf(names: seq<string>, name: string): (i: nat)
    requires name in names
    ensures i < |names| && names[i] == name
    ensures forall j :: 0 <= j < i ==> names[j] != name
  {
    if names[0] == name then 0 else 1 + IndexOf(names[1..], name)
  }

  /** Value of band `name` of an opaque image at the pixel being evaluated. */
  type Sample = (Image, string) -> real

  /** Band values at one pixel, in band order. A zero divisor yields 0.0 here; the engine would mask the pixel. */
  function Eval(img: Image, px: Sample): (v: seq<real>)
    requires Defined(img)
    ensures |v| == |Bands(img)|
  {
    match img
    case Source(_, names) => seq(|names|, i requires 0 <= i < |names| => px(img, names[i]))
    case MedianOf(_, _) => seq(|HarmonizedBands|, i requires 0 <= i < |HarmonizedBands| => px(img, HarmonizedBands[i]))
    case IndexBand(_, name) => [px(img, name)]
    case Select(src, band) => [Eval(src, px)[IndexOf(Bands(src), band)]]
    case Subtract(left, right) => [Eval(left, px)[0] - Eval(right, px)[0]]
    case Divide(left, right) =>
      var den := Eval(right, px)[0];
      [if den == 0.0 then 0.0 else Eval(left, px)[0] / den]
    case Scale(src, factor) => [Eval(src, px)[0] * factor]
    case ReplaceZero(src, replacement) =>
      var x := Eval(src, px)[0];
      [if x == 0.0 then replacement else x]
    case Rename(src, _) => Eval(src, px)
    case AddBands(first, second) => Eval(first, px) + Eval(second, px)
    case Classified(delta, t) => [Thresholds.Classify(t, Eval(delta, px)[0]) as real]
    case WithProps(src, _) => Eval(src, px)
  }

  /** Value of the first band called `name` at the pixel. */
  function BandValue(img: Image, name: string, px: Sample): real
    requires Defined(img) && name in Bands(img)
  {
    Eval(img, px)[IndexOf(Bands(img), name)]
  }

  /** The band "d" + i that holds the change of index i. */
  function DeltaName(indexName: string): string {
    "d" + indexName
  }

  /** `after.select(i) - before.select(i)`, renamed "d" + i. */
  function Delta(before: Image, after: Image, indexName: string): Image {
    Rename(Subtract(Select(after, indexName), Select(before, indexName)), DeltaName(indexName))
  }

  /** `combined = images[0]`, then `addBands` of each further image in order. */
  function Combine(images: seq<Image>): (r: Image)
    requires |images| >= 1
    decreases |images|
  {
    if |images| == 1 then images[0]
    else AddBands(Combine(images[..|images| - 1]), images[|images| - 1])
  }

  /** The bands of a combination are the bands of its parts, in order. */
  function ConcatBands(images: seq<Image>): seq<string>
    decreases |images|
  {
    if images == [] then [] else ConcatBands(images[..|images| - 1]) + Bands(images[|images| - 1])
  }

  lemma {:induction false} CombineConcatBands(images: seq<Image>)
    requires |images| >= 1
    ensures Bands(Combine(images)) == ConcatBands(images)
    decreases |images|
  {
    if |images| == 1 {
      assert images[..0] == [];
    } else {
      CombineConcatBands(images[..|images| - 1]);
    }
  }

  /** Combining single-band images gives one band per image, band k holding image k's value. */
  lemma {:induction false} CombineSingleBands(images: seq<Image>, px: Sample, k: nat)
    requires |images| >= 1 && k < |images|
    requires forall i :: 0 <= i < |images| ==> Defined(images[i]) && SingleBand(images[i])
    ensures Defined(Combine(images)) && |Eval(Combine(images), px)| == |images|
    ensures |Eval(images[k], px)| == 1 && Eval(Combine(images), px)[k] == Eval(images[k], px)[0]
    decreases |images|
  {
    var n := |images|;
    if n > 1 {
      var prefix := images[..n - 1];
      assert forall i :: 0 <= i < n - 1 ==> prefix[i] == images[i];
      if k < n - 1 {
        CombineSingleBands(prefix, px, k);
      } else {
        CombineSingleBands(prefix, px, 0);
      }
    }
  }

  /** `combined = images[0]` followed by `addBands` of the rest, in order. */
  method CombineAll(images: seq<Image>) returns (combined: Image)
    requires |images| >= 1
    ensures combined == Combine(images)
  {
    combined := images[0];
    var j := 1;
    while j < |images|
      invariant 1 <= j <= |images|
      invariant combined == Combine(images[..j])
    {
      assert images[..j + 1][..j] == images[..j];
      combined := AddBands(combined, images[j]);
      j := j + 1;
    }
    assert images[..j] == images;
  }

  /** Where both images carry the index band, the delta is defined and holds after − before. */
  lemma {:induction false} DeltaValue(before: Image, after: Image, indexName: string, px: Sample)
    requires Defined(before) && Defined(after)
    requires indexName in Bands(before) && indexName in Bands(after)
    ensures Defined(Delta(before, after, indexName)) && Bands(Delta(before, after, indexName)) == [DeltaName(indexName)]
    ensures Eval(Delta(before, after, indexName), px) == [BandValue(after, indexName, px) - BandValue(before, indexName, px)]
  {
    SelectValue(before, indexName, px);
    SelectValue(after, indexName, px);
  }

  /** Selecting a present band yields that band's value under the band's own name. */
  lemma {:induction false} SelectValue(img: Image, name: string, px: Sample)
    requires Defined(img) && name in Bands(img)
    ensures Defined(Select(img, name)) && Bands(Select(img, name)) == [name]
    ensures Eval(Select(img, name), px) == [BandValue(img, name, px)]
  {
  }

  /** Adding bands keeps the first image's bands and values in front. */
  lemma {:induction false} AddBandsKeepsFirst(first: Image, second: Image, name: string, px: Sample)
    requires Defined(first) && Defined(second) && name in Bands(first)
    ensures Defined(AddBands(first, second))
    ensures name in Bands(AddBands(first, second))
    ensures BandValue(AddBands(first, second), name, px) == BandValue(first, name, px)
  {
    var b := Bands(AddBands(first, second));
    var i := IndexOf(Bands(first), name);
    assert b == Bands(first) + Bands(second);
    assert b[i] == name;
    assert forall j :: 0 <= j < i ==> b[j] != name;
    assert IndexOf(b, name) == i by { IndexOfUnique(b, name, i); }
  }

  lemma {:induction false} IndexOfUnique(names: seq<string>, name: string, i: nat)
    requires i < |names| && names[i] == name
    requires forall j :: 0 <= j < i ==> names[j] != name
    ensures IndexOf(names, name) == i
    decreases i
  {
    if i > 0 {
      assert names[0] != name;
      IndexOfUnique(names[1..], name, i - 1);
    }
  }
}
