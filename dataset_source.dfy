/** `DataSetSource`: a dict from names to data sources; reading it realises every source under
    its own name. The read operation of an individual source is a parameter (`readSource`). */
module DataSetSources {
  import opened Results
  import opened DataSets

  /** `DataSetSource.read`: `{name: source.read() for name, source in self.items()}`. */
  function Read<S, D>(sources: map<string, S>, readSource: S -> D): (ds: map<string, D>)
    ensures ds.Keys == sources.Keys
    ensures forall name :: name in sources ==> ds[name] == readSource(sources[name])
  {
    map name | name in sources :: readSource(sources[name])
  }

  /** An empty source collection reads to an empty DataSet. */
  lemma ReadEmpty<S, D>(readSource: S -> D)
    ensures Read(map[], readSource) == map[]
  {
  }

  /** Reading and then asking for some keys gives each key's source read, in request order; an
      unknown key raises `KeyError`. */
  lemma ReadThenGetAll<S, D>(sources: map<string, S>, readSource: S -> D, ds: DataSet<D>, keys: seq<string>)
    requires ds.entries == Read(sources, readSource)
    ensures ds.GetAll(keys).Ok? <==> forall i :: 0 <= i < |keys| ==> keys[i] in sources
    ensures ds.GetAll(keys).Ok? ==>
              forall i :: 0 <= i < |keys| ==> ds.GetAll(keys).value[i] == readSource(sources[keys[i]])
  {
  }

  /** The test helper's data source: `read()` returns the list it was built with. */
  datatype DummySource = DummySource(l: seq<int>)

  function ReadDummy(s: DummySource): seq<int> {
    s.l
  }

  /** `get_dummy_data(n, x_offset, y_offset)`. */
  function DummyData(n: nat, xOffset: int, yOffset: int): map<string, DummySource> {
    map["x" := DummySource(seq(n, i => i + xOffset)), "y" := DummySource(seq(n, i => i + yOffset))]
  }

  /** Reading the dummy data yields `x[i] = i + x_offset` and `y[i] = i + y_offset`. */
  lemma DummyDataReads(n: nat, xOffset: int, yOffset: int)
    ensures var ds := Read(DummyData(n, xOffset, yOffset), ReadDummy);
            && ds.Keys == {"x", "y"}
            && |ds["x"]| == n && |ds["y"]| == n
            && (forall i :: 0 <= i < n ==> ds["x"][i] == i + xOffset && ds["y"][i] == i + yOffset)
  {
  }
}
