/**
 * LOADER_REGISTRY and register_loader (loaders/loader_registry.py), and
 * the import-time registration each loader module performs.
 */
module LoaderRegistry {
  import opened Values
  import opened CsvLoader
  import opened BaseLoader

  /** What a single insertion under `key` does to a name-keyed map. */
  lemma InsertEffect<V>(m: map<string, V>, key: string, v: V)
    ensures key in m[key := v] && m[key := v][key] == v
    ensures forall k :: k != key ==> (k in m[key := v] <==> k in m)
    ensures forall k :: k != key && k in m ==> m[key := v][k] == m[k]
    ensures key in m ==> |m[key := v]| == |m|
    ensures key !in m ==> |m[key := v]| == |m| + 1
  {
    var m' := m[key := v];
    if key in m {
      assert m'.Keys == m.Keys;
    } else {
      assert m'.Keys == m.Keys + {key};
      assert |m'.Keys| == |m.Keys| + |{key}|;
    }
  }

  /** The process-wide LOADER_REGISTRY dict. */
  class Registry {
    var entries: map<string, Loader>

    /** LOADER_REGISTRY = {} */
    constructor ()
      ensures entries == map[]
    {
      entries := map[];
    }

    /**
     * LOADER_REGISTRY[instance.name()] = instance: insert or replace
     * (last write wins) under the name the loader reports now.
     */
    method Register(l: Loader)
      modifies this
      ensures entries == old(entries)[Name(l) := l]
      ensures Name(l) in entries && entries[Name(l)] == l
      ensures forall k :: k != Name(l) && k in old(entries) ==> k in entries && entries[k] == old(entries)[k]
      ensures Name(l) in old(entries) ==> |entries| == |old(entries)|
      ensures Name(l) !in old(entries) ==> |entries| == |old(entries)| + 1
    {
      InsertEffect(entries, Name(l), l);
      entries := entries[Name(l) := l];
    }

    /**
     * register_loader(cls): builds one instance, registers it under the
     * name it reports, and hands the class back unchanged.
     */
    method RegisterLoader(cls: LoaderClass) returns (r: LoaderClass)
      modifies this
      ensures r == cls
      ensures InitialName(cls) in entries && InstanceOf(entries[InitialName(cls)], cls)
      ensures entries.Keys == old(entries).Keys + {InitialName(cls)}
      ensures forall k :: k != InitialName(cls) && k in old(entries) ==> entries[k] == old(entries)[k]
      ensures cls == CSVLoaderClass ==>
        var c := entries["CSV"].csv; fresh(c) && c.Name() == "CSV" && c.Load() == []
    {
      var instance: Loader;
      match cls {
        case FakeSAPLoader => instance := FakeSAP;
        case FakeWorkdayLoader => instance := FakeWorkday;
        case CSVLoaderClass =>
          var c := new CSVLoader();
          instance := Csv(c);
      }
      Register(instance);
      r := cls;
    }
  }

  /** sap_loader.py, at import: registers a FakeSAPLoader instance. */
  method ImportSapModule(reg: Registry)
    modifies reg
    ensures reg.entries == old(reg.entries)["FakeSAP" := FakeSAP]
  {
    reg.Register(FakeSAP);
  }

  /** workday_loader.py, at import: registers a FakeWorkdayLoader instance. */
  method ImportWorkdayModule(reg: Registry)
    modifies reg
    ensures reg.entries == old(reg.entries)["FakeWorkday" := FakeWorkday]
  {
    reg.Register(FakeWorkday);
  }

  /** csv_loader.py, at import: registers one fresh, empty CSVLoader under "CSV". */
  method ImportCsvModule(reg: Registry) returns (c: CSVLoader)
    modifies reg
    ensures fresh(c) && c.Name() == "CSV" && c.Load() == []
    ensures reg.entries == old(reg.entries)["CSV" := Csv(c)]
  {
    c := new CSVLoader();
    reg.Register(Csv(c));
  }

  /**
   * From an empty registry, importing the three loader modules and then
   * calling set_data(n, recs) on the CSV loader: the registry keys stay the
   * three import-time names, yet the loader stored under "CSV" now reports
   * the name n, so a renamed CSV source is not reachable under its new name.
   */
  method CsvRenameKeepsKey(n: string, recs: seq<Record>)
    returns (keys: set<string>, nameUnderCsv: string, loadedUnderCsv: seq<Record>)
    ensures keys == {"FakeSAP", "FakeWorkday", "CSV"}
    ensures nameUnderCsv == n && loadedUnderCsv == recs
    ensures n !in {"FakeSAP", "FakeWorkday", "CSV"} ==> n !in keys
  {
    var reg := new Registry();
    ImportSapModule(reg);
    ImportWorkdayModule(reg);
    var c := ImportCsvModule(reg);
    c.SetData(n, recs);
    keys := reg.entries.Keys;
    var l := reg.entries["CSV"];
    nameUnderCsv := Name(l);
    loadedUnderCsv := Load(l);
  }
}
