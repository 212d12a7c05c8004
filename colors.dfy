/** Visualisation parameters, palettes and legends for the change maps:
    the parameter registry, palette lookup, value-to-colour interpolation, the
    legend contents and the hex-to-RGB conversion used for colour maps. */
module Colors {
  import opened Common
  import Config

  /** `VisParams`: a value range and, optionally, a palette, band names and a gamma. */
  datatype VisParams = VisParams(min: real, max: real, palette: Option<seq<string>>,
                                 bands: Option<seq<string>>, gamma: Option<real>)

  /** A value of the dictionary `to_dict` returns. */
  datatype ParamValue = Number(x: real) | Names(items: seq<string>)

  /** Python truthiness of the optional fields: None, an empty list and 0.0 are false. */
  predicate TruthyList(x: Option<seq<string>>) {
    x.Some? && x.value != []
  }

  predicate TruthyReal(x: Option<real>) {
    x.Some? && x.value != 0.0
  }

  /** `VisParams.to_dict`: min and max always, each optional field only when it is truthy. */
  function ToDict(p: VisParams): (d: map<string, ParamValue>)
    ensures "min" in d && d["min"] == Number(p.min)
    ensures "max" in d && d["max"] == Number(p.max)
    ensures "palette" in d <==> TruthyList(p.palette)
    ensures "bands" in d <==> TruthyList(p.bands)
    ensures "gamma" in d <==> TruthyReal(p.gamma)
    ensures TruthyList(p.palette) ==> d["palette"] == Names(p.palette.value)
    ensures TruthyList(p.bands) ==> d["bands"] == Names(p.bands.value)
    ensures TruthyReal(p.gamma) ==> d["gamma"] == Number(p.gamma.value)
    ensures forall k :: k in d ==> k == "min" || k == "max" || k == "palette" || k == "bands" || k == "gamma"
  {
    var d0 := map["min" := Number(p.min), "max" := Number(p.max)];
    var d1 := if TruthyList(p.palette) then d0["palette" := Names(p.palette.value)] else d0;
    var d2 := if TruthyList(p.bands) then d1["bands" := Names(p.bands.value)] else d1;
    if TruthyReal(p.gamma) then d2["gamma" := Number(p.gamma.value)] else d2
  }

  /** A gamma of 0.0 and an empty palette are dropped from the dictionary, as if absent. */
  lemma FalsyFieldsDropped(p: VisParams)
    ensures ToDict(p.(gamma := Some(0.0))) == ToDict(p.(gamma := None))
    ensures ToDict(p.(palette := Some([]))) == ToDict(p.(palette := None))
  {
  }

  const NdviPalette: seq<string> := ["#d73027", "#fc8d59", "#fee08b", "#d9ef8b", "#91cf60", "#1a9850"]
  const NbrPalette: seq<string> :=
    ["#7f3b08", "#b35806", "#e08214", "#fdb863", "#fee0b6", "#f7f7f7", "#d8daeb", "#b2abd2", "#8073ac", "#542788"]
  const DndviPalette: seq<string> := ["#d7191c", "#fdae61", "#ffffbf", "#a6d96a", "#1a9641"]
  const DnbrPalette: seq<string> :=
    ["#7f3b08", "#b35806", "#e08214", "#fdb863", "#f7f7f7", "#d8daeb", "#b2abd2", "#8073ac", "#2d004b"]
  const ChangeClassPalette: seq<string> := ["#d7191c", "#fdae61", "#ffffbf", "#a6d96a", "#1a9641"]

  /** `VIS_PARAMS_REGISTRY`'s keys, in their order. */
  const RegistryNames: seq<string> := ["ndvi", "nbr", "dndvi", "dnbr", "change_class", "rgb", "false_color", "swir"]

  /** `VIS_PARAMS_REGISTRY` */
  function Registry(): map<string, VisParams> {
    map[
      "ndvi" := VisParams(-0.2, 0.8, Some(NdviPalette), None, None),
      "nbr" := VisParams(-0.5, 0.8, Some(NbrPalette), None, None),
      "dndvi" := VisParams(-0.4, 0.4, Some(DndviPalette), None, None),
      "dnbr" := VisParams(-0.5, 0.5, Some(DnbrPalette), None, None),
      "change_class" := VisParams(1.0, 5.0, Some(ChangeClassPalette), None, None),
      "rgb" := VisParams(0.0, 0.3, None, Some(["red", "green", "blue"]), Some(1.4)),
      "false_color" := VisParams(0.0, 0.4, None, Some(["nir", "red", "green"]), Some(1.4)),
      "swir" := VisParams(0.0, 0.4, None, Some(["swir2", "nir", "red"]), Some(1.4))
    ]
  }

  function UnknownVisParams(name: string): Error {
    ValueError("Unknown vis params: " + name + ". Available: " + Join(", ", RegistryNames))
  }

  /** `get_vis_params`: the registered parameters, or ValueError listing the registered names. */
  function GetVisParams(name: string): (r: Result<VisParams>)
    ensures r.Ok? <==> name in Registry()
    ensures r.Ok? ==> r.value == Registry()[name]
    ensures r.Err? ==> r.error == UnknownVisParams(name)
  {
    if name !in Registry() then Err(UnknownVisParams(name)) else Ok(Registry()[name])
  }

  /** The listed names are exactly the registry's keys. */
  lemma RegistryNamesAreKeys()
    ensures forall k :: k in Registry() <==> k in RegistryNames
  {
  }

  /** `get_colormap`: the palette of the named parameters, or the empty list when they have none. */
  function GetColormap(name: string): (r: Result<seq<string>>)
    ensures r.Ok? <==> name in Registry()
    ensures r.Err? ==> r.error == UnknownVisParams(name)
    ensures r.Ok? && Registry()[name].palette.Some? ==> r.value == Registry()[name].palette.value
    ensures r.Ok? && Registry()[name].palette.None? ==> r.value == []
  {
    var params := GetVisParams(name);
    if params.Err? then Err(params.error)
    else if TruthyList(params.value.palette) then Ok(params.value.palette.value)
    else Ok([])
  }

  /** The composite parameter sets have no palette; the change classes use the class palette. */
  lemma ColormapExamples()
    ensures GetColormap("rgb") == Ok([]) && GetColormap("swir") == Ok([])
    ensures GetColormap("change_class") == Ok(ChangeClassPalette)
  {
  }

  /** The legend's class colours are the colours the class table assigns, class k at position k − 1. */
  lemma ClassPaletteMatchesClassTable(c: int)
    requires 1 <= c <= 5
    ensures ChangeClassPalette[c - 1] == Config.ChangeClasses()[c].color
  {
  }

  // ---------------------------------------------------------------------------
  // interpolate_color
  // ---------------------------------------------------------------------------

  /** `max(0, min(1, x))` */
  function Clamp01(x: real): (r: real)
    ensures 0.0 <= r <= 1.0
    ensures 0.0 <= x <= 1.0 ==> r == x
  {
    if x < 0.0 then 0.0 else if x > 1.0 then 1.0 else x
  }

  /** `int(t * (n - 1))` for t in [0, 1]: truncation, which is the floor for non-negative values. */
  function PaletteIndex(n: nat, t: real): (i: nat)
    requires n >= 1 && 0.0 <= t <= 1.0
    ensures i <= n - 1
  {
    var x := t * (n - 1) as real;
    ScaleWithin(t, (n - 1) as real);
    x.Floor
  }

  lemma ScaleWithin(t: real, m: real)
    requires 0.0 <= t <= 1.0 && m >= 0.0
    ensures 0.0 <= t * m <= m
  {
    assert m - t * m == (1.0 - t) * m;
  }

  /** A quotient by a positive number is at least 1 when the dividend is at least the divisor. */
  lemma QuotientAtLeastOne(a: real, d: real)
    requires d > 0.0 && a >= d
    ensures a / d >= 1.0
  {
    var q := a / d;
    assert q * d == a;
  }

  /** `interpolate_color`: grey for an empty palette; otherwise the palette entry at the clamped,
      normalised position. Python raises ZeroDivisionError when the range is empty. */
  function InterpolateColor(value: real, minVal: real, maxVal: real, palette: seq<string>): (r: Result<string>)
    ensures palette == [] ==> r == Ok("#808080")
    ensures r.Err? <==> palette != [] && maxVal == minVal
    ensures r.Err? ==> r.error == ZeroDivisionError("float division by zero")
    ensures r.Ok? && palette != [] ==> r.value in palette
  {
    if |palette| == 0 then Ok("#808080")
    else if maxVal == minVal then Err(ZeroDivisionError("float division by zero"))
    else Ok(palette[PaletteIndex(|palette|, Clamp01((value - minVal) / (maxVal - minVal)))])
  }

  /** Values at or below the minimum get the first colour; at or above the maximum, the last. */
  lemma {:induction false} InterpolateEndpoints(value: real, minVal: real, maxVal: real, palette: seq<string>)
    requires palette != [] && maxVal > minVal
    ensures value <= minVal ==> InterpolateColor(value, minVal, maxVal, palette) == Ok(palette[0])
    ensures value >= maxVal ==> InterpolateColor(value, minVal, maxVal, palette) == Ok(palette[|palette| - 1])
  {
    var t := (value - minVal) / (maxVal - minVal);
    if value <= minVal {
      assert t <= 0.0;
    }
    if value >= maxVal {
      QuotientAtLeastOne(value - minVal, maxVal - minVal);
    }
  }

  /** With an increasing range, a larger value never maps to an earlier palette position. */
  lemma {:induction false} InterpolateMonotone(v1: real, v2: real, minVal: real, maxVal: real, n: nat)
    requires n >= 1 && maxVal > minVal && v1 <= v2
    ensures PaletteIndex(n, Clamp01((v1 - minVal) / (maxVal - minVal)))
         <= PaletteIndex(n, Clamp01((v2 - minVal) / (maxVal - minVal)))
  {
    var d := maxVal - minVal;
    var t1 := (v1 - minVal) / d;
    var t2 := (v2 - minVal) / d;
    DivideKeepsOrder(v1 - minVal, v2 - minVal, d);
    var c1 := Clamp01(t1);
    var c2 := Clamp01(t2);
    assert c1 <= c2;
    ScaleKeepsOrder(c1, c2, (n - 1) as real);
  }

  lemma DivideKeepsOrder(a: real, b: real, d: real)
    requires d > 0.0 && a <= b
    ensures a / d <= b / d
  {
    var q1 := a / d;
    var q2 := b / d;
    assert q1 * d == a && q2 * d == b;
    assert (q2 - q1) * d == b - a;
    NonNegativeFactor(q2 - q1, d);
  }

  lemma NonNegativeFactor(x: real, d: real)
    requires d > 0.0 && x * d >= 0.0
    ensures x >= 0.0
  {
  }

  lemma ScaleKeepsOrder(x1: real, x2: real, m: real)
    requires x1 <= x2 && m >= 0.0
    ensures x1 * m <= x2 * m
  {
    assert x2 * m - x1 * m == (x2 - x1) * m;
  }

  // ---------------------------------------------------------------------------
  // get_legend_html
  // ---------------------------------------------------------------------------

  /** One coloured box and its label. */
  datatype LegendItem = LegendItem(color: string, text: string)

  /** What a legend shows; `NoLegend` is the empty string. */
  datatype Legend =
    | ClassLegend(title: string, items: seq<LegendItem>)
    | GradientLegend(title: string, palette: seq<string>, minVal: real, maxVal: real, minLabel: string, maxLabel: string)
    | NoLegend

  const EnglishLabels: seq<string> := ["Strong Loss", "Moderate Loss", "Stable", "Moderate Gain", "Strong Gain"]
  const SpanishLabels: seq<string> := ["Pérdida Fuerte", "Pérdida Moderada", "Estable", "Ganancia Moderada", "Ganancia Fuerte"]

  /** `CHANGE_CLASS_LABELS.get(language, CHANGE_CLASS_LABELS["en"])`, classes 1..5 in order. */
  function ClassLabels(language: string): (r: seq<string>)
    ensures |r| == 5
    ensures language == "es" ==> r == SpanishLabels
    ensures language != "es" ==> r == EnglishLabels
  {
    if language == "es" then SpanishLabels else EnglishLabels
  }

  /** `title or default` */
  function TitleOr(title: Option<string>, default: string): (r: string)
    ensures title.Some? && title.value != "" ==> r == title.value
    ensures title.None? || title.value == "" ==> r == default
  {
    if title.Some? && title.value != "" then title.value else default
  }

  /** What `get_legend_html` renders. */
  function LegendFor(visType: string, language: string, title: Option<string>): (l: Legend)
    ensures visType == "change_class" ==> l.ClassLegend? && |l.items| == 5
    ensures visType == "change_class" ==> forall k :: 0 <= k < 5 ==>
              l.items[k] == LegendItem(ChangeClassPalette[k], ClassLabels(language)[k])
    ensures visType != "change_class" && visType != "ndvi" && visType != "nbr" ==> l == NoLegend
  {
    if visType == "change_class" then
      var labels := ClassLabels(language);
      ClassLegend(TitleOr(title, if language == "en" then "Vegetation Change" else "Cambio de Vegetación"),
                  seq(5, k requires 0 <= k < 5 => LegendItem(ChangeClassPalette[k], labels[k])))
    else if visType == "ndvi" then
      GradientLegend(TitleOr(title, "NDVI"), NdviPalette, -0.2, 0.8, "Bare/Water", "Dense Vegetation")
    else if visType == "nbr" then
      GradientLegend(TitleOr(title, "NBR"), NbrPalette, -0.5, 0.8, "Burned", "Healthy")
    else NoLegend
  }

  /** A language other than "en" and "es" gets the English labels but the Spanish default title. */
  lemma UnknownLanguageMix(language: string)
    requires language != "en" && language != "es"
    ensures LegendFor("change_class", language, None).title == "Cambio de Vegetación"
    ensures forall k :: 0 <= k < 5 ==> LegendFor("change_class", language, None).items[k].text == EnglishLabels[k]
  {
  }

  /** `get_legend_html`: the change-class legend is built item by item, in class order. */
  method GetLegendHtml(visType: string := "change_class", language: string := "en", title: Option<string> := None)
    returns (legend: Legend)
    ensures legend == LegendFor(visType, language, title)
  {
    if visType == "change_class" {
      var labels := ClassLabels(language);
      var palette := ChangeClassPalette;
      var heading := TitleOr(title, if language == "en" then "Vegetation Change" else "Cambio de Vegetación");
      var items: seq<LegendItem> := [];
      for i := 0 to |labels|
        invariant |items| == i
        invariant forall k :: 0 <= k < i ==> items[k] == LegendItem(palette[k], labels[k])
      {
        items := items + [LegendItem(palette[i], labels[i])];
      }
      legend := ClassLegend(heading, items);
    } else if visType == "ndvi" {
      legend := GradientLegend(TitleOr(title, "NDVI"), NdviPalette, -0.2, 0.8, "Bare/Water", "Dense Vegetation");
    } else if visType == "nbr" {
      legend := GradientLegend(TitleOr(title, "NBR"), NbrPalette, -0.5, 0.8, "Burned", "Healthy");
    } else {
      legend := NoLegend;
    }
  }

  // ---------------------------------------------------------------------------
  // get_matplotlib_cmap
  // ---------------------------------------------------------------------------

  datatype Rgb = Rgb(r: real, g: real, b: real)

  function HexDigit(c: char): (v: Option<nat>)
    ensures v.Some? ==> v.value < 16
  {
    if '0' <= c <= '9' then Some(c as int - '0' as int)
    else if 'a' <= c <= 'f' then Some(c as int - 'a' as int + 10)
    else if 'A' <= c <= 'F' then Some(c as int - 'A' as int + 10)
    else None
  }

  predicate AllHex(s: string) {
    forall i :: 0 <= i < |s| ==> HexDigit(s[i]).Some?
  }

  /** The value of a string of hex digits. */
  function HexValue(s: string): (v: nat)
    requires AllHex(s)
    ensures v < Pow16(|s|)
    decreases |s|
  {
    if s == [] then 0
    else
      var n := |s| - 1;
      assert AllHex(s[..n]);
      HexValue(s[..n]) * 16 + HexDigit(s[n]).value
  }

  function Pow16(n: nat): (p: nat)
    ensures p >= 1
  {
    if n == 0 then 1 else 16 * Pow16(n - 1)
  }

  /** `int(s, 16)` for a string of hex digits; anything else is a ValueError. */
  function ParseHex(s: string): (r: Result<nat>)
    ensures r.Ok? <==> s != [] && AllHex(s)
    ensures r.Ok? ==> r.value == HexValue(s)
  {
    if s != [] && AllHex(s) then Ok(HexValue(s))
    else Err(ValueError("invalid literal for int() with base 16: '" + s + "'"))
  }

  /** `s.lstrip("#")` */
  function StripHashes(s: string): (r: string)
    ensures |r| <= |s| && (r != [] ==> r[0] != '#')
    decreases |s|
  {
    if s != [] && s[0] == '#' then StripHashes(s[1..]) else s
  }

  /** `s[i:i+2]` */
  function Pair(s: string, i: nat): (r: string)
    ensures |r| <= 2
  {
    if i >= |s| then [] else if i + 2 <= |s| then s[i..i + 2] else s[i..]
  }

  /** One palette colour as three components `int(pair, 16) / 255`. */
  function HexToRgb(color: string): (r: Result<Rgb>)
    ensures r.Ok? ==> 0.0 <= r.value.r <= 1.0 && 0.0 <= r.value.g <= 1.0 && 0.0 <= r.value.b <= 1.0
  {
    var h := StripHashes(color);
    match ParseHex(Pair(h, 0))
    case Err(e) => Err(e)
    case Ok(red) =>
      match ParseHex(Pair(h, 2))
      case Err(e) => Err(e)
      case Ok(green) =>
        match ParseHex(Pair(h, 4))
        case Err(e) => Err(e)
        case Ok(blue) =>
          PairBelow256(Pair(h, 0));
          PairBelow256(Pair(h, 2));
          PairBelow256(Pair(h, 4));
          Ok(Rgb(red as real / 255.0, green as real / 255.0, blue as real / 255.0))
  }

  lemma PairBelow256(s: string)
    requires |s| <= 2 && AllHex(s)
    ensures HexValue(s) < 256
  {
    assert Pow16(|s|) <= 256;
  }

  /** A colour written "#rrggbb" always converts, each pair giving its own component. */
  lemma {:induction false} SixDigitColorParses(color: string)
    requires |color| == 7 && color[0] == '#' && AllHex(color[1..])
    ensures HexToRgb(color).Ok?
    ensures HexToRgb(color).value.r == HexValue(color[1..3]) as real / 255.0
    ensures HexToRgb(color).value.g == HexValue(color[3..5]) as real / 255.0
    ensures HexToRgb(color).value.b == HexValue(color[5..7]) as real / 255.0
  {
    var h := color[1..];
    assert StripHashes(color) == StripHashes(color[1..]);
    assert h[0] != '#' by {
      assert HexDigit(h[0]).Some?;
    }
    assert StripHashes(h) == h;
    assert Pair(h, 0) == color[1..3] && Pair(h, 2) == color[3..5] && Pair(h, 4) == color[5..7];
    assert AllHex(Pair(h, 0)) && AllHex(Pair(h, 2)) && AllHex(Pair(h, 4));
  }

  /** The colours of a palette, converting each in order and stopping at the first failure. */
  function ConvertAll(palette: seq<string>): (r: Result<seq<Rgb>>)
    ensures r.Ok? ==> |r.value| == |palette|
    ensures r.Ok? ==> forall k :: 0 <= k < |palette| ==> HexToRgb(palette[k]) == Ok(r.value[k])
    decreases |palette|
  {
    if palette == [] then Ok([])
    else
      var n := |palette| - 1;
      match ConvertAll(palette[..n])
      case Err(e) => Err(e)
      case Ok(done) =>
        match HexToRgb(palette[n])
        case Err(e) => Err(e)
        case Ok(c) => Ok(done + [c])
  }

  /** `get_matplotlib_cmap`, with the colour map represented by its list of colours: None for an
      empty palette. */
  function Cmap(name: string): Result<Option<seq<Rgb>>> {
    match GetColormap(name)
    case Err(e) => Err(e)
    case Ok(palette) =>
      if palette == [] then Ok(None)
      else match ConvertAll(palette)
        case Err(e) => Err(e)
        case Ok(colors) => Ok(Some(colors))
  }

  /** Every colour of a colour map has components in [0, 1]. */
  lemma CmapComponentsInRange(name: string)
    requires Cmap(name).Ok? && Cmap(name).value.Some?
    ensures forall k :: 0 <= k < |Cmap(name).value.value| ==>
              var c := Cmap(name).value.value[k];
              0.0 <= c.r <= 1.0 && 0.0 <= c.g <= 1.0 && 0.0 <= c.b <= 1.0
  {
    var palette := GetColormap(name).value;
    forall k | 0 <= k < |Cmap(name).value.value|
      ensures var c := Cmap(name).value.value[k]; 0.0 <= c.r <= 1.0 && 0.0 <= c.g <= 1.0 && 0.0 <= c.b <= 1.0
    {
      assert HexToRgb(palette[k]) == Ok(Cmap(name).value.value[k]);
    }
  }

  /** `get_matplotlib_cmap`: converts the palette colour by colour. */
  method GetMatplotlibCmap(name: string) returns (r: Result<Option<seq<Rgb>>>)
    ensures r == Cmap(name)
  {
    var palette := GetColormap(name);
    if palette.Err? {
      return Err(palette.error);
    }
    if palette.value == [] {
      return Ok(None);
    }
    var p := palette.value;
    var rgbColors: seq<Rgb> := [];
    var i := 0;
    while i < |p|
      invariant 0 <= i <= |p|
      invariant ConvertAll(p[..i]) == Ok(rgbColors)
    {
      assert p[..i + 1][..i] == p[..i];
      var c := HexToRgb(p[i]);
      if c.Err? {
        ConvertErrorSticks(p, i + 1);
        return Err(c.error);
      }
      rgbColors := rgbColors + [c.value];
      i := i + 1;
    }
    assert p[..i] == p;
    r := Ok(Some(rgbColors));
  }

  lemma {:induction false} ConvertErrorSticks(palette: seq<string>, n: nat)
    requires n <= |palette| && ConvertAll(palette[..n]).Err?
    ensures ConvertAll(palette) == ConvertAll(palette[..n])
    decreases |palette| - n
  {
    if n < |palette| {
      assert palette[..n + 1][..n] == palette[..n];
      ConvertErrorSticks(palette, n + 1);
    } else {
      assert palette[..n] == palette;
    }
  }
}
