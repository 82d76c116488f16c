/** FakeSAPLoader (loaders/sap_loader.py): a constant mock source. */
module SapLoader {
  import opened Values
  import FieldMapper

  /** FakeSAPLoader.name() */
  function Name(): (n: string)
    ensures n in FieldMapper.FakeFieldMappings
  {
    "FakeSAP"
  }

  /** FakeSAPLoader.load() */
  function Load(): (rs: seq<Record>)
    ensures |rs| == 2 && forall r :: r in rs ==> r.Keys <= FieldMapper.SapMapping.Keys
  {
    [ map["emp_id" := Str("001"), "emp_sal" := Int(12000), "emp_name" := Str("Ramesh")],
      map["emp_id" := Str("002"), "emp_sal" := Int(10000), "emp_name" := Str("Sita")] ]
  }

  /** The loader's name is a source of the static mapping tables. */
  lemma NameHasMapping()
    ensures Name() in FieldMapper.FakeFieldMappings
    ensures FieldMapper.FakeFieldMappings[Name()] == FieldMapper.SapMapping
  {
  }

  /** Two records, "001" then "002", with distinct ids. */
  lemma LoadShape()
    ensures |Load()| == 2
    ensures Load()[0]["emp_id"] == Str("001") && Load()[1]["emp_id"] == Str("002")
    ensures forall a, b :: 0 <= a < b < |Load()| ==> Load()[a]["emp_id"] != Load()[b]["emp_id"]
  {
  }

  /**
   * Every key of every record is a FakeSAP source key, and every record
   * carries string values under the keys mapped to employee_id and name.
   */
  lemma RecordsUseMappedKeys()
    ensures forall r: Record, k :: r in Load() && k in r ==> k in FieldMapper.SapMapping
    ensures forall r: Record :: r in Load() ==>
      && "emp_id" in r && r["emp_id"].Str? && FieldMapper.SapMapping["emp_id"] == "employee_id"
      && "emp_name" in r && r["emp_name"].Str? && FieldMapper.SapMapping["emp_name"] == "name"
  {
    var rs := Load();
    assert rs[0].Keys == {"emp_id", "emp_sal", "emp_name"};
    assert rs[1].Keys == {"emp_id", "emp_sal", "emp_name"};
  }
}
