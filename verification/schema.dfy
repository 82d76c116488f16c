/**
 * The unified employee schema (schema.py) and the six-name target
 * vocabulary that the mapper prompt announces (llm_mapper.py line 15).
 */
module Schema {
  import opened Wrappers
  import opened Values

  /** The standard fields, in the order the prompt lists them. */
  const TargetFields: seq<string> :=
    ["employee_id", "name", "salary", "email", "department", "location"]

  /** The target vocabulary as a set. */
  const Targets: set<string> := {"employee_id", "name", "salary", "email", "department", "location"}

  /** A validated unified record: two required strings, four optional fields. */
  datatype UnifiedEmployee = UnifiedEmployee(
    employeeId: string,
    name: string,
    salary: Option<int>,
    email: Option<string>,
    department: Option<string>,
    location: Option<string>)

  /** Why construction was refused: the field that is missing or mistyped. */
  datatype ValidationError = Missing(field: string) | WrongType(field: string)

  /** A required string field: absent or null is Missing, a non-string is WrongType. */
  function RequiredStr(fields: map<string, Value>, f: string): (r: Result<string, ValidationError>)
    ensures r.Success? <==> f in fields && fields[f].Str?
    ensures r.Success? ==> r.value == fields[f].s
    ensures r.Failure? && (f !in fields || fields[f] == Null) ==> r.error == Missing(f)
    ensures r.Failure? && f in fields && fields[f].Int? ==> r.error == WrongType(f)
  {
    if f !in fields then Failure(Missing(f))
    else match fields[f]
      case Str(s) => Success(s)
      case Null => Failure(Missing(f))
      case Int(_) => Failure(WrongType(f))
  }

  /** An optional string field: absent or null defaults to None. */
  function OptionalStr(fields: map<string, Value>, f: string): (r: Result<Option<string>, ValidationError>)
    ensures (f !in fields || fields[f] == Null) ==> r == Success(None)
    ensures f in fields && fields[f].Str? ==> r == Success(Some(fields[f].s))
    ensures f in fields && fields[f].Int? ==> r == Failure(WrongType(f))
  {
    if f !in fields then Success(None)
    else match fields[f]
      case Str(s) => Success(Some(s))
      case Null => Success(None)
      case Int(_) => Failure(WrongType(f))
  }

  /** The optional numeric salary: absent or null defaults to None. */
  function OptionalNum(fields: map<string, Value>, f: string): (r: Result<Option<int>, ValidationError>)
    ensures (f !in fields || fields[f] == Null) ==> r == Success(None)
    ensures f in fields && fields[f].Int? ==> r == Success(Some(fields[f].i))
    ensures f in fields && fields[f].Str? ==> r == Failure(WrongType(f))
  {
    if f !in fields then Success(None)
    else match fields[f]
      case Int(n) => Success(Some(n))
      case Null => Success(None)
      case Str(_) => Failure(WrongType(f))
  }

  /**
   * Pydantic construction of UnifiedEmployee from keyword fields: the
   * required fields must be present strings, optional fields default to
   * None, fields outside the schema are ignored. Errors are reported for
   * the first failing field in declaration order.
   */
  function MakeEmployee(fields: map<string, Value>): (r: Result<UnifiedEmployee, ValidationError>)
    ensures r.Success? ==>
      && "employee_id" in fields && fields["employee_id"] == Str(r.value.employeeId)
      && "name" in fields && fields["name"] == Str(r.value.name)
  {
    match RequiredStr(fields, "employee_id")
    case Failure(e) => Failure(e)
    case Success(id) =>
      match RequiredStr(fields, "name")
      case Failure(e) => Failure(e)
      case Success(nm) =>
        match OptionalNum(fields, "salary")
        case Failure(e) => Failure(e)
        case Success(sal) =>
          match OptionalStr(fields, "email")
          case Failure(e) => Failure(e)
          case Success(em) =>
            match OptionalStr(fields, "department")
            case Failure(e) => Failure(e)
            case Success(dep) =>
              match OptionalStr(fields, "location")
              case Failure(e) => Failure(e)
              case Success(loc) => Success(UnifiedEmployee(id, nm, sal, em, dep, loc))
  }

  /** Construction fails with Missing exactly when employee_id or name is absent or null. */
  lemma MissingRequiredFails(fields: map<string, Value>)
    ensures ("employee_id" !in fields || fields["employee_id"] == Null)
            ==> MakeEmployee(fields) == Failure(Missing("employee_id"))
    ensures ("employee_id" in fields && fields["employee_id"].Str?
             && ("name" !in fields || fields["name"] == Null))
            ==> MakeEmployee(fields) == Failure(Missing("name"))
    ensures MakeEmployee(fields).Failure? && MakeEmployee(fields).error.Missing? ==>
            MakeEmployee(fields).error.field in {"employee_id", "name"}
  {
  }

  /**
   * With both required fields present as strings and no optional field
   * mistyped, construction succeeds; every absent or null optional field
   * is None and every present one carries its value.
   */
  lemma WellTypedSucceeds(fields: map<string, Value>)
    requires "employee_id" in fields && fields["employee_id"].Str?
    requires "name" in fields && fields["name"].Str?
    requires "salary" in fields ==> !fields["salary"].Str?
    requires forall f :: f in ["email", "department", "location"] && f in fields ==> !fields[f].Int?
    ensures MakeEmployee(fields).Success?
    ensures var e := MakeEmployee(fields).value;
      && e.employeeId == fields["employee_id"].s
      && e.name == fields["name"].s
      && e.salary == (if "salary" in fields && fields["salary"].Int? then Some(fields["salary"].i) else None)
      && e.email == (if "email" in fields && fields["email"].Str? then Some(fields["email"].s) else None)
      && e.department == (if "department" in fields && fields["department"].Str? then Some(fields["department"].s) else None)
      && e.location == (if "location" in fields && fields["location"].Str? then Some(fields["location"].s) else None)
  {
    assert "email" in ["email", "department", "location"];
    assert "department" in ["email", "department", "location"];
    assert "location" in ["email", "department", "location"];
  }

  /** The prompt lists six distinct names, which as a set are the vocabulary. */
  lemma VocabularyHasSixFields()
    ensures Targets == set f | f in TargetFields
    ensures |Targets| == 6
    ensures forall i, j :: 0 <= i < j < |TargetFields| ==> TargetFields[i] != TargetFields[j]
  {
  }

  /** A value as a raw field: None becomes null. */
  function StrField(o: Option<string>): Value {
    match o
    case Some(s) => Str(s)
    case None => Null
  }

  function NumField(o: Option<int>): Value {
    match o
    case Some(n) => Int(n)
    case None => Null
  }

  /** The record's fields as keyword arguments, one per vocabulary name. */
  function ToFields(e: UnifiedEmployee): map<string, Value> {
    map["employee_id" := Str(e.employeeId), "name" := Str(e.name),
        "salary" := NumField(e.salary), "email" := StrField(e.email),
        "department" := StrField(e.department), "location" := StrField(e.location)]
  }

  /**
   * Every UnifiedEmployee is built back from its own fields, and those
   * fields are exactly the target vocabulary.
   */
  lemma FieldsRoundTrip(e: UnifiedEmployee)
    ensures ToFields(e).Keys == Targets
    ensures MakeEmployee(ToFields(e)) == Success(e)
  {
  }

  /**
   * Construction reads only the fields of the target vocabulary: keys
   * outside it are ignored, whatever they hold.
   */
  lemma OnlyVocabularyFieldsRead(fields: map<string, Value>)
    ensures MakeEmployee(fields) == MakeEmployee(map k | k in fields && k in Targets :: fields[k])
  {
    var kept := map k | k in fields && k in Targets :: fields[k];
    assert RequiredStr(kept, "employee_id") == RequiredStr(fields, "employee_id");
    assert RequiredStr(kept, "name") == RequiredStr(fields, "name");
    assert OptionalNum(kept, "salary") == OptionalNum(fields, "salary");
    assert OptionalStr(kept, "email") == OptionalStr(fields, "email");
    assert OptionalStr(kept, "department") == OptionalStr(fields, "department");
    assert OptionalStr(kept, "location") == OptionalStr(fields, "location");
  }
}
