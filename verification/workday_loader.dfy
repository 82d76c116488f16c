/** FakeWorkdayLoader (loaders/workday_loader.py): a constant mock source. */
module WorkdayLoader {
  import opened Values
  import FieldMapper

  /** FakeWorkdayLoader.name() */
  function Name(): (n: string)
    ensures n in FieldMapper.FakeFieldMappings
  {
    "FakeWorkday"
  }

  /** FakeWorkdayLoader.load() */
  function Load(): (rs: seq<Record>)
    ensures |rs| == 2 && forall r :: r in rs ==> r.Keys <= FieldMapper.WorkdayMapping.Keys
  {
    [ map["id" := Str("001"), "name" := Str("Ramesh"), "sal" := Int(12000)],
      map["id" := Str("002"), "name" := Str("Sita"), "sal" := Int(10000)] ]
  }

  /** The loader's name is a source of the static mapping tables. */
  lemma NameHasMapping()
    ensures Name() in FieldMapper.FakeFieldMappings
    ensures FieldMapper.FakeFieldMappings[Name()] == FieldMapper.WorkdayMapping
  {
  }

  /** Two records, "001" then "002", with distinct ids. */
  lemma LoadShape()
    ensures |Load()| == 2
    ensures Load()[0]["id"] == Str("001") && Load()[1]["id"] == Str("002")
    ensures forall a, b :: 0 <= a < b < |Load()| ==> Load()[a]["id"] != Load()[b]["id"]
  {
  }

  /**
   * Every key of every record is a FakeWorkday source key, and every
   * record carries string values under the keys mapped to employee_id and name.
   */
  lemma RecordsUseMappedKeys()
    ensures forall r: Record, k :: r in Load() && k in r ==> k in FieldMapper.WorkdayMapping
    ensures forall r: Record :: r in Load() ==>
      && "id" in r && r["id"].Str? && FieldMapper.WorkdayMapping["id"] == "employee_id"
      && "name" in r && r["name"].Str? && FieldMapper.WorkdayMapping["name"] == "name"
  {
    var rs := Load();
    assert rs[0].Keys == {"id", "name", "sal"};
    assert rs[1].Keys == {"id", "name", "sal"};
  }
}
