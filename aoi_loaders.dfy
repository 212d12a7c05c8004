/** Choosing an area-of-interest loader by file suffix, and the loading steps
    whose outcome the system decides itself: which file inside a KMZ archive is
    read, the order of the KML readers and the default coordinate reference
    system. Reading files is left to the caller, who supplies its outcomes. */
module AoiLoaders {
  import opened Common

  /** A loader in the registry. A custom loader accepts whatever paths its own predicate accepts. */
  datatype Loader =
    | GeoPackageLoader
    | ShapefileLoader
    | GeoJsonLoader
    | KmzLoader
    | KmlLoader
    | CustomLoader(id: nat, accepts: string -> bool)

  /** `supports`: the built-in loaders compare the lower-cased path with their suffixes. */
  predicate Supports(loader: Loader, path: string) {
    match loader
    case GeoPackageLoader => EndsWith(Lower(path), ".gpkg")
    case ShapefileLoader => EndsWith(Lower(path), ".shp")
    case GeoJsonLoader => EndsWith(Lower(path), ".geojson") || EndsWith(Lower(path), ".json")
    case KmzLoader => EndsWith(Lower(path), ".kmz")
    case KmlLoader => EndsWith(Lower(path), ".kml")
    case CustomLoader(_, accepts) => accepts(path)
  }

  predicate BuiltIn(loader: Loader) {
    !loader.CustomLoader?
  }

  /** `LOADER_REGISTRY` as the module defines it. */
  const BuiltinLoaders: seq<Loader> := [GeoPackageLoader, ShapefileLoader, GeoJsonLoader, KmzLoader, KmlLoader]

  lemma {:induction false} LowerIdempotent(s: string)
    ensures Lower(Lower(s)) == Lower(s)
  {
    var l := Lower(s);
    assert forall i :: 0 <= i < |s| ==> Lower(l)[i] == LowerChar(LowerChar(s[i])) == LowerChar(s[i]);
  }

  /** Built-in loaders ignore letter case: a path and its lower-cased form are accepted alike. */
  lemma {:induction false} SupportsIgnoresCase(loader: Loader, path: string)
    requires BuiltIn(loader)
    ensures Supports(loader, path) <==> Supports(loader, Lower(path))
  {
    LowerIdempotent(path);
  }

  /** A string ending with a suffix ends with the suffix's last character. */
  lemma {:induction false} EndsWithLast(s: string, suffix: string)
    requires |suffix| >= 1 && EndsWith(s, suffix)
    ensures |s| >= 1 && s[|s| - 1] == suffix[|suffix| - 1]
  {
    assert s[|s| - |suffix|..][|suffix| - 1] == s[|s| - 1];
  }

  /** The last character of the lower-cased path that each built-in loader needs. */
  function LastChar(loader: Loader): char
    requires BuiltIn(loader)
  {
    match loader
    case GeoPackageLoader => 'g'
    case ShapefileLoader => 'p'
    case GeoJsonLoader => 'n'
    case KmzLoader => 'z'
    case KmlLoader => 'l'
  }

  lemma {:induction false} SupportsLastChar(loader: Loader, path: string)
    requires BuiltIn(loader) && Supports(loader, path)
    ensures |path| >= 1 && Lower(path)[|path| - 1] == LastChar(loader)
  {
    var p := Lower(path);
    match loader
    case GeoPackageLoader => EndsWithLast(p, ".gpkg");
    case ShapefileLoader => EndsWithLast(p, ".shp");
    case GeoJsonLoader =>
      if EndsWith(p, ".geojson") {
        EndsWithLast(p, ".geojson");
      } else {
        EndsWithLast(p, ".json");
      }
    case KmzLoader => EndsWithLast(p, ".kmz");
    case KmlLoader => EndsWithLast(p, ".kml");
  }

  /** The built-in suffix sets are disjoint: two different built-in loaders never accept the same path. */
  lemma {:induction false} BuiltinsDisjoint(l1: Loader, l2: Loader, path: string)
    requires BuiltIn(l1) && BuiltIn(l2) && l1 != l2
    ensures !(Supports(l1, path) && Supports(l2, path))
  {
    if Supports(l1, path) && Supports(l2, path) {
      SupportsLastChar(l1, path);
      SupportsLastChar(l2, path);
    }
  }

  function NoLoader(path: string): Error {
    ValueError("No loader found for file: " + path)
  }

  /** `get_loader`: the first loader in registry order that accepts the path. */
  function FindLoader(loaders: seq<Loader>, path: string): Result<Loader>
    decreases |loaders|
  {
    if loaders == [] then Err(NoLoader(path))
    else if Supports(loaders[0], path) then Ok(loaders[0])
    else FindLoader(loaders[1..], path)
  }

  /** The search finds a loader exactly when one accepts the path; it is the first such loader. */
  lemma {:induction false} FindLoaderFirst(loaders: seq<Loader>, path: string)
    ensures FindLoader(loaders, path).Ok? <==> exists i :: 0 <= i < |loaders| && Supports(loaders[i], path)
    ensures FindLoader(loaders, path).Err? ==> FindLoader(loaders, path).error == NoLoader(path)
    ensures FindLoader(loaders, path).Ok? ==>
              (exists i :: 0 <= i < |loaders| && loaders[i] == FindLoader(loaders, path).value
                 && Supports(loaders[i], path) && forall j :: 0 <= j < i ==> !Supports(loaders[j], path))
    decreases |loaders|
  {
    if loaders != [] && !Supports(loaders[0], path) {
      FindLoaderFirst(loaders[1..], path);
      if FindLoader(loaders, path).Ok? {
        var i :| 0 <= i < |loaders[1..]| && loaders[1..][i] == FindLoader(loaders, path).value
                 && Supports(loaders[1..][i], path) && forall j :: 0 <= j < i ==> !Supports(loaders[1..][j], path);
        assert loaders[i + 1] == loaders[1..][i];
        assert forall j :: 1 <= j < i + 1 ==> loaders[j] == loaders[1..][j - 1];
      }
      if exists i :: 0 <= i < |loaders| && Supports(loaders[i], path) {
        var i :| 0 <= i < |loaders| && Supports(loaders[i], path);
        assert loaders[1..][i - 1] == loaders[i];
      }
    }
  }

  /** Appending a loader changes nothing for paths an earlier loader accepts; otherwise the new
      loader is chosen exactly when it accepts the path. */
  lemma {:induction false} FindAfterAppend(loaders: seq<Loader>, loader: Loader, path: string)
    ensures FindLoader(loaders, path).Ok? ==> FindLoader(loaders + [loader], path) == FindLoader(loaders, path)
    ensures FindLoader(loaders, path).Err? ==>
              FindLoader(loaders + [loader], path) == if Supports(loader, path) then Ok(loader) else Err(NoLoader(path))
    decreases |loaders|
  {
    if loaders != [] {
      assert (loaders + [loader])[1..] == loaders[1..] + [loader];
      FindAfterAppend(loaders[1..], loader, path);
    } else {
      assert ([] + [loader])[1..] == [];
    }
  }

  /** With the built-in registry, a path accepted by a built-in loader goes to that loader. */
  lemma {:induction false} BuiltinChoice(loader: Loader, path: string)
    requires BuiltIn(loader) && Supports(loader, path)
    ensures FindLoader(BuiltinLoaders, path) == Ok(loader)
  {
    forall l | l in BuiltinLoaders && l != loader
      ensures !Supports(l, path)
    {
      BuiltinsDisjoint(l, loader, path);
    }
    var b := BuiltinLoaders;
    assert b[1..][1..][1..][1..][1..] == [];
  }

  /** `LOADER_REGISTRY` with `register_loader` and `get_loader`. */
  class LoaderRegistry {
    var loaders: seq<Loader>

    constructor()
      ensures loaders == BuiltinLoaders
    {
      loaders := BuiltinLoaders;
    }

    /** `register_loader`: the loader goes to the end of the list. */
    method RegisterLoader(loader: Loader)
      modifies this
      ensures loaders == old(loaders) + [loader]
    {
      loaders := loaders + [loader];
    }

    /** `get_loader`: scans the registry in order and returns the first loader that accepts the path. */
    method GetLoader(path: string) returns (r: Result<Loader>)
      ensures r == FindLoader(loaders, path)
    {
      var i := 0;
      while i < |loaders|
        invariant 0 <= i <= |loaders|
        invariant FindLoader(loaders[i..], path) == FindLoader(loaders, path)
      {
        if Supports(loaders[i], path) {
          return Ok(loaders[i]);
        }
        assert loaders[i..][1..] == loaders[i + 1..];
        i := i + 1;
      }
      r := Err(NoLoader(path));
    }
  }

  // ---------------------------------------------------------------------------
  // KMZ archives and KML readers
  // ---------------------------------------------------------------------------

  /** A loaded table of features: an opaque identity, its row count and its coordinate reference system. */
  datatype GeoFrame = GeoFrame(id: nat, rows: nat, crs: Option<int>)

  /** What `Path.glob("*.kml")` matches in the extraction directory: every name ending in ".kml",
      hidden names such as ".a.kml" included (pathlib has no hidden-file rule). */
  predicate KmlCandidate(name: string) {
    EndsWith(name, ".kml")
  }

  /** The index of the first candidate in the listing, if any. */
  function FirstKml(files: seq<string>): (r: Option<nat>)
    ensures r.Some? ==> r.value < |files| && KmlCandidate(files[r.value])
                        && forall j :: 0 <= j < r.value ==> !KmlCandidate(files[j])
    ensures r.None? ==> forall j :: 0 <= j < |files| ==> !KmlCandidate(files[j])
    decreases |files|
  {
    if files == [] then None
    else if KmlCandidate(files[0]) then Some(0)
    else match FirstKml(files[1..])
      case None => None
      case Some(k) => Some(k + 1)
  }

  /** The KML file `kmz_to_geodataframe` reads from an archive whose top-level listing is `files`:
      doc.kml when present, otherwise the first `*.kml`; none of them is an error. */
  function KmzInnerFile(kmzPath: string, files: seq<string>): (r: Result<string>)
    ensures "doc.kml" in files ==> r == Ok("doc.kml")
    ensures "doc.kml" !in files && FirstKml(files).Some? ==> r == Ok(files[FirstKml(files).value])
    ensures r.Ok? <==> "doc.kml" in files || exists j :: 0 <= j < |files| && KmlCandidate(files[j])
    ensures r.Err? ==> r.error == ValueError("No KML file found in KMZ: " + kmzPath)
  {
    if "doc.kml" in files then Ok("doc.kml")
    else match FirstKml(files)
      case None => Err(ValueError("No KML file found in KMZ: " + kmzPath))
      case Some(k) => Ok(files[k])
  }

  /** Hidden names count: an archive whose only KML file is ".a.kml" is read from that file. */
  lemma HiddenKmlFound(kmzPath: string)
    ensures KmzInnerFile(kmzPath, [".a.kml"]) == Ok(".a.kml")
  {
    assert ".a.kml"[2..] == ".kml";
  }

  /** The outcome of one reading attempt: it raised with a message, or it returned a table. */
  datatype ReadOutcome = Raised(message: string) | Returned(frame: GeoFrame)

  /** The readers `_read_kml_file` tries, in order. */
  const KmlReaders: seq<string> := ["LIBKML", "KML", "pyogrio", "manual"]

  /** An attempt that stops the fallback chain: it returned a non-empty table. */
  predicate Accepted(o: ReadOutcome) {
    o.Returned? && o.frame.rows > 0
  }

  /** The messages recorded for the attempts that raised, each prefixed by its reader's name. */
  function RecordedErrors(labels: seq<string>, outcomes: seq<ReadOutcome>): (r: seq<string>)
    requires |labels| == |outcomes|
    ensures |r| <= |outcomes|
    decreases |outcomes|
  {
    if outcomes == [] then []
    else
      var n := |outcomes| - 1;
      RecordedErrors(labels[..n], outcomes[..n])
      + (if outcomes[n].Raised? then [labels[n] + ": " + outcomes[n].message] else [])
  }

  /** `_read_kml_file` given the outcomes of its attempts: the first non-empty table, or a
      ValueError listing every recorded error. */
  function ReadKml(outcomes: seq<ReadOutcome>): (r: Result<GeoFrame>)
    requires |outcomes| == |KmlReaders|
  {
    ReadFrom(outcomes, 0)
  }

  function ReadFrom(outcomes: seq<ReadOutcome>, i: nat): Result<GeoFrame>
    requires |outcomes| == |KmlReaders| && i <= |outcomes|
    decreases |outcomes| - i
  {
    if i == |outcomes| then Err(ValueError("Failed to read KML: " + Join("; ", RecordedErrors(KmlReaders, outcomes))))
    else if Accepted(outcomes[i]) then Ok(outcomes[i].frame)
    else ReadFrom(outcomes, i + 1)
  }

  /** The chain returns the first accepted table; when none is accepted it reports every raised attempt. */
  lemma {:induction false} ReadFromFirst(outcomes: seq<ReadOutcome>, i: nat)
    requires |outcomes| == |KmlReaders| && i <= |outcomes|
    ensures ReadFrom(outcomes, i).Ok? <==> exists k :: i <= k < |outcomes| && Accepted(outcomes[k])
    ensures ReadFrom(outcomes, i).Ok? ==>
              (exists k :: i <= k < |outcomes| && Accepted(outcomes[k])
                 && ReadFrom(outcomes, i).value == outcomes[k].frame && forall j :: i <= j < k ==> !Accepted(outcomes[j]))
    ensures ReadFrom(outcomes, i).Err? ==>
              ReadFrom(outcomes, i).error == ValueError("Failed to read KML: " + Join("; ", RecordedErrors(KmlReaders, outcomes)))
    decreases |outcomes| - i
  {
    if i < |outcomes| && !Accepted(outcomes[i]) {
      ReadFromFirst(outcomes, i + 1);
    }
  }

  /** Every recorded error belongs to an attempt that raised, in reader order. */
  lemma {:induction false} RecordedErrorsExact(labels: seq<string>, outcomes: seq<ReadOutcome>)
    requires |labels| == |outcomes|
    ensures |RecordedErrors(labels, outcomes)| == |set k | 0 <= k < |outcomes| && outcomes[k].Raised?|
    decreases |outcomes|
  {
    if outcomes != [] {
      var n := |outcomes| - 1;
      RecordedErrorsExact(labels[..n], outcomes[..n]);
      var before := set k | 0 <= k < n && outcomes[..n][k].Raised?;
      var all := set k | 0 <= k < |outcomes| && outcomes[k].Raised?;
      assert before == set k | 0 <= k < n && outcomes[k].Raised?;
      if outcomes[n].Raised? {
        assert all == before + {n};
      } else {
        assert all == before;
      }
    }
  }

  /** `_read_kml_file`: tries each reader in turn, records the message of each that raises, and
      returns the first non-empty table. */
  method ReadKmlFile(outcomes: seq<ReadOutcome>) returns (r: Result<GeoFrame>)
    requires |outcomes| == |KmlReaders|
    ensures r == ReadKml(outcomes)
  {
    var errors: seq<string> := [];
    var i := 0;
    while i < |outcomes|
      invariant 0 <= i <= |outcomes|
      invariant errors == RecordedErrors(KmlReaders[..i], outcomes[..i])
      invariant ReadFrom(outcomes, i) == ReadKml(outcomes)
    {
      assert KmlReaders[..i + 1][..i] == KmlReaders[..i];
      assert outcomes[..i + 1][..i] == outcomes[..i];
      if Accepted(outcomes[i]) {
        return Ok(outcomes[i].frame);
      }
      if outcomes[i].Raised? {
        errors := errors + [KmlReaders[i] + ": " + outcomes[i].message];
      }
      i := i + 1;
    }
    assert KmlReaders[..i] == KmlReaders && outcomes[..i] == outcomes;
    r := Err(ValueError("Failed to read KML: " + Join("; ", errors)));
  }

  /** EPSG code `load_aoi` assigns when the table has none (WGS 84). */
  const DefaultEpsg: int := 4326

  /** The CRS step of `load_aoi`: 4326 only when the table has no CRS; everything else kept. */
  function WithDefaultCrs(frame: GeoFrame): (r: GeoFrame)
    ensures r.crs.Some?
    ensures frame.crs.Some? ==> r == frame
    ensures frame.crs.None? ==> r.crs == Some(DefaultEpsg)
    ensures r.id == frame.id && r.rows == frame.rows
  {
    if frame.crs.None? then frame.(crs := Some(DefaultEpsg)) else frame
  }

  /** Applying the default twice is applying it once. */
  lemma DefaultCrsIdempotent(frame: GeoFrame)
    ensures WithDefaultCrs(WithDefaultCrs(frame)) == WithDefaultCrs(frame)
  {
  }

  /** `load_aoi`: the chosen loader's table, given by `read`, with the default CRS applied. */
  method LoadAoi(registry: LoaderRegistry, path: string, read: Loader -> Result<GeoFrame>) returns (r: Result<GeoFrame>)
    ensures FindLoader(registry.loaders, path).Err? ==> r == Err(NoLoader(path))
    ensures FindLoader(registry.loaders, path).Ok? ==>
              r == match read(FindLoader(registry.loaders, path).value)
                   case Err(e) => Err(e)
                   case Ok(f) => Ok(WithDefaultCrs(f))
  {
    var loader := registry.GetLoader(path);
    if loader.Err? {
      FindLoaderFirst(registry.loaders, path);
      return Err(loader.error);
    }
    var loaded := read(loader.value);
    if loaded.Err? {
      return Err(loaded.error);
    }
    r := Ok(WithDefaultCrs(loaded.value));
  }
}
