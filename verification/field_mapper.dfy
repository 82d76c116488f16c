/** The static per-source mapping tables of field_mapper.py. */
module FieldMapper {
  import opened Schema

  /** A field mapping: source field name to unified field name. */
  type FieldMapping = map<string, string>

  const SapMapping: FieldMapping := map[
    "emp_id" := "employee_id",
    "emp_name" := "name",
    "emp_sal" := "salary",
    "emp_email_id" := "email",
    "emp_dept" := "department",
    "emp_work_location" := "location"]

  const WorkdayMapping: FieldMapping := map[
    "id" := "employee_id",
    "name" := "name",
    "sal" := "salary",
    "email_id" := "email",
    "dept" := "department",
    "work_location" := "location"]

  /** fake_field_mappings: source name to its mapping table. */
  const FakeFieldMappings: map<string, FieldMapping> :=
    map["FakeSAP" := SapMapping, "FakeWorkday" := WorkdayMapping]

  /** Every target of the mapping lies in the unified vocabulary. */
  ghost predicate TargetsInVocabulary(m: FieldMapping) {
    forall k :: k in m ==> m[k] in Targets
  }

  /** Distinct source keys map to distinct targets. */
  ghost predicate Injective(m: FieldMapping) {
    forall k1, k2 :: k1 in m && k2 in m && k1 != k2 ==> m[k1] != m[k2]
  }

  /** Every target of the vocabulary is hit by some source key. */
  ghost predicate CoversVocabulary(m: FieldMapping) {
    forall t :: t in Targets ==> exists k :: k in m && m[k] == t
  }

  /** inv undoes m: every key is recovered from its target. */
  ghost predicate LeftInverse(m: FieldMapping, inv: map<string, string>) {
    forall k :: k in m ==> m[k] in inv && inv[m[k]] == k
  }

  /** A mapping with a left inverse sends distinct keys to distinct targets. */
  lemma LeftInverseInjective(m: FieldMapping, inv: map<string, string>)
    requires LeftInverse(m, inv)
    ensures Injective(m)
  {
    forall k1, k2 | k1 in m && k2 in m && k1 != k2 ensures m[k1] != m[k2] {
      assert inv[m[k1]] == k1 && inv[m[k2]] == k2;
    }
  }

  /** The unified field each FakeSAP key came from, read backwards. */
  const SapInverse: map<string, string> := map[
    "employee_id" := "emp_id",
    "name" := "emp_name",
    "salary" := "emp_sal",
    "email" := "emp_email_id",
    "department" := "emp_dept",
    "location" := "emp_work_location"]

  /** The unified field each FakeWorkday key came from, read backwards. */
  const WorkdayInverse: map<string, string> := map[
    "employee_id" := "id",
    "name" := "name",
    "salary" := "sal",
    "email" := "email_id",
    "department" := "dept",
    "location" := "work_location"]

  /** Both directions of a bijection onto the vocabulary, through the inverse table. */
  lemma BijectionOntoTargets(m: FieldMapping, inv: map<string, string>)
    requires LeftInverse(m, inv)
    requires inv.Keys == Targets
    requires forall t :: t in inv ==> inv[t] in m && m[inv[t]] == t
    ensures TargetsInVocabulary(m) && Injective(m) && CoversVocabulary(m)
    ensures m.Values == Targets
  {
    LeftInverseInjective(m, inv);
    forall t | t in Targets ensures exists k :: k in m && m[k] == t {
      assert inv[t] in m && m[inv[t]] == t;
    }
  }

  /** The FakeSAP table entry by entry. */
  lemma SapEntries()
    ensures SapMapping.Keys == {"emp_id", "emp_name", "emp_sal", "emp_email_id", "emp_dept", "emp_work_location"}
    ensures SapInverse.Keys == Targets
    ensures && SapMapping["emp_id"] == "employee_id" && SapMapping["emp_name"] == "name"
            && SapMapping["emp_sal"] == "salary" && SapMapping["emp_email_id"] == "email"
            && SapMapping["emp_dept"] == "department" && SapMapping["emp_work_location"] == "location"
    ensures && SapInverse["employee_id"] == "emp_id" && SapInverse["name"] == "emp_name"
            && SapInverse["salary"] == "emp_sal" && SapInverse["email"] == "emp_email_id"
            && SapInverse["department"] == "emp_dept" && SapInverse["location"] == "emp_work_location"
  {
  }

  /** The FakeWorkday table entry by entry. */
  lemma WorkdayEntries()
    ensures WorkdayMapping.Keys == {"id", "name", "sal", "email_id", "dept", "work_location"}
    ensures WorkdayInverse.Keys == Targets
    ensures && WorkdayMapping["id"] == "employee_id" && WorkdayMapping["name"] == "name"
            && WorkdayMapping["sal"] == "salary" && WorkdayMapping["email_id"] == "email"
            && WorkdayMapping["dept"] == "department" && WorkdayMapping["work_location"] == "location"
    ensures && WorkdayInverse["employee_id"] == "id" && WorkdayInverse["name"] == "name"
            && WorkdayInverse["salary"] == "sal" && WorkdayInverse["email"] == "email_id"
            && WorkdayInverse["department"] == "dept" && WorkdayInverse["location"] == "work_location"
  {
  }

  /** The FakeSAP table is a bijection from its six keys onto the vocabulary. */
  lemma SapMappingIsBijection()
    ensures TargetsInVocabulary(SapMapping)
    ensures Injective(SapMapping)
    ensures CoversVocabulary(SapMapping)
    ensures SapMapping.Values == Targets
  {
    SapEntries();
    BijectionOntoTargets(SapMapping, SapInverse);
  }

  /** The FakeWorkday table is a bijection from its six keys onto the vocabulary. */
  lemma WorkdayMappingIsBijection()
    ensures TargetsInVocabulary(WorkdayMapping)
    ensures Injective(WorkdayMapping)
    ensures CoversVocabulary(WorkdayMapping)
    ensures WorkdayMapping.Values == Targets
  {
    WorkdayEntries();
    BijectionOntoTargets(WorkdayMapping, WorkdayInverse);
  }

  /** Exactly two sources are defined, and their source-key sets are disjoint. */
  lemma TwoDisjointSources()
    ensures FakeFieldMappings.Keys == {"FakeSAP", "FakeWorkday"}
    ensures FakeFieldMappings["FakeSAP"].Keys !! FakeFieldMappings["FakeWorkday"].Keys
  {
    assert SapMapping.Keys == {"emp_id", "emp_name", "emp_sal", "emp_email_id", "emp_dept", "emp_work_location"};
    assert WorkdayMapping.Keys == {"id", "name", "sal", "email_id", "dept", "work_location"};
  }
}
