/** The spectral-index registry: a mutable dictionary from index name to index,
    which keeps its keys in insertion order. */
module IndexBase {
  import opened Common
  import opened Imagery

  /** A spectral index: its band name and description. Its formula is opaque here. */
  datatype SpectralIndex = SpectralIndex(name: string, description: string)

  /** `calculate`: the input image with the index band, named after the index, added at the end. */
  function Calculate(index: SpectralIndex, image: Image): (r: Image)
    ensures Bands(r) == Bands(image) + [index.name]
    ensures Defined(image) ==> Defined(r)
  {
    AddBands(image, IndexBand(image, index.name))
  }

  const Ndvi: SpectralIndex := SpectralIndex("ndvi", "Normalized Difference Vegetation Index")
  const Nbr: SpectralIndex := SpectralIndex("nbr", "Normalized Burn Ratio")
  const Ndwi: SpectralIndex := SpectralIndex("ndwi", "Normalized Difference Water Index")
  const Evi: SpectralIndex := SpectralIndex("evi", "Enhanced Vegetation Index")
  const Ndmi: SpectralIndex := SpectralIndex("ndmi", "Normalized Difference Moisture Index")

  const BuiltinTable: map<string, SpectralIndex> :=
    map["ndvi" := Ndvi, "nbr" := Nbr, "ndwi" := Ndwi, "evi" := Evi, "ndmi" := Ndmi]

  /** The built-in indices, in registration order. */
  const BuiltinNames: seq<string> := ["ndvi", "nbr", "ndwi", "evi", "ndmi"]

  /** Every index is filed under its own name. */
  predicate KeyedByName(table: map<string, SpectralIndex>) {
    forall k :: k in table ==> table[k].name == k
  }

  /** `INDEX_REGISTRY`: `names` is the dictionary's key order, `table` its contents. */
  class IndexRegistry {
    var names: seq<string>
    var table: map<string, SpectralIndex>

    /** Keys are listed once each, exactly the table's keys, and every index is filed under its own name. */
    ghost predicate Valid()
      reads this
    {
      Distinct(names)
      && (forall k :: k in table <==> k in names)
      && KeyedByName(table)
    }

    /** The registry as `engine/indices/base.py` creates it: empty. */
    constructor()
      ensures Valid() && names == [] && table == map[]
    {
      names := [];
      table := map[];
    }

    /** `INDEX_REGISTRY[key] = index`. A new key goes to the end; an existing key keeps its place. */
    method Put(key: string, index: SpectralIndex)
      requires Valid() && index.name == key
      modifies this
      ensures Valid()
      ensures table == old(table)[key := index]
      ensures names == if key in old(table) then old(names) else old(names) + [key]
    {
      if key !in table {
        names := names + [key];
      }
      table := table[key := index];
    }

    /** `register_index`: files the index under its own name, replacing a same-named entry. */
    method RegisterIndex(index: SpectralIndex)
      requires Valid()
      modifies this
      ensures Valid()
      ensures table == old(table)[index.name := index]
      ensures names == if index.name in old(table) then old(names) else old(names) + [index.name]
      ensures index.name in names
    {
      Put(index.name, index);
    }

    /** `get_available_indices`: the registered names, each once, in insertion order. */
    method GetAvailableIndices() returns (r: seq<string>)
      requires Valid()
      ensures r == names
      ensures Distinct(r) && forall k :: k in r <==> k in table
    {
      r := names;
    }

    /** The five assignments the package makes on import. */
    method PopulateBuiltins()
      requires Valid() && table == map[]
      modifies this
      ensures Valid()
      ensures names == BuiltinNames
      ensures table == BuiltinTable
    {
      names := BuiltinNames;
      table := BuiltinTable;
      assert Distinct(names) by {
        assert forall i, j :: 0 <= i < j < 5 ==> names[i] != names[j];
      }
    }
  }

  /** The registry after the package is imported: the five built-in indices. */
  method LoadedRegistry() returns (reg: IndexRegistry)
    ensures fresh(reg) && reg.Valid()
    ensures reg.names == BuiltinNames
    ensures reg.table == BuiltinTable
  {
    reg := new IndexRegistry();
    reg.PopulateBuiltins();
  }

  /** Registering leaves every other entry as it was. */
  lemma RegisterKeepsOthers(before: map<string, SpectralIndex>, index: SpectralIndex, k: string)
    requires k != index.name
    ensures k in before[index.name := index] <==> k in before
    ensures k in before ==> before[index.name := index][k] == before[k]
  {
  }
}
