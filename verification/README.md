# SyncHub backend core, modelled in Dafny

SyncHub gathers employee records from HR sources and maps their field names
onto one unified schema. The sources are mock SAP and Workday feeds and
uploaded CSV data. This project models the parts of the backend that hold
state or fixed data, and proves what they promise:

- `connected_sources.dfy` (main.py): the in-memory list of connected
  sources. `connect_source` rejects unknown names with a 404 error result,
  is idempotent, and otherwise appends one `{name, connected_at}` entry.
  `get_data` concatenates the records of the connected sources in
  connection order. `list_sources` returns the list. `fake_data_sources` is
  an abstract map fixed at start-up. The timestamp is a parameter.
- `loader_registry.dfy` (loaders/loader_registry.py): `LOADER_REGISTRY` as
  a class holding a name-keyed map. `Register` inserts with last-write-wins
  under the name the loader reports. `RegisterLoader` is the
  `register_loader` decorator. The file also holds the import-time
  registration each loader module performs.
- `csv_loader.dfy` (loaders/csv_loader.py): `CSVLoader` as a class whose
  `set_data` overwrites both the name and the records.
- `base_loader.dfy` (loaders/base_loader.py): the `name()`/`load()` shape.
  Dafny traits are not used here, so it is a datatype with one variant per
  concrete loader. The CSV variant refers to its mutable loader object.
- `sap_loader.dfy`, `workday_loader.dfy`: the two constant mock loaders.
- `field_mapper.dfy` (field_mapper.py): the static `fake_field_mappings`
  tables.
- `schema.dfy` (schema.py): `UnifiedEmployee` as a validating constructor.
  It also holds the six-name target vocabulary of llm_mapper.py line 15.
- `llm_mapper.dfy` (llm_mapper.py lines 31-44): strip the model's reply,
  take the greedy DOTALL match of `\{.*\}`, and parse it or raise. The reply
  is an input. `json.loads` is a function parameter that may fail.
- `wrappers.dfy`: `Option`, `Result` and the scalar `Value` of a raw record.

Three points of the code that the model follows as written:

- The regex is greedy. The span runs from the first `{` to the last `}`,
  and the braces need not balance. That is what `LlmMapper.ExtractSpan`
  models.
- `connect_source` checks membership in `fake_data_sources`, not in the
  loader registry.
- The loader modules call `loader_registry.register(instance)`. But
  loaders/loader_registry.py defines only `LOADER_REGISTRY` and
  `register_loader(cls)`, so that import would fail as written. The model
  gives the registry one `Register(instance)` operation. It has the
  semantics of loaders/loader_registry.py line 5. The import-time calls use
  it.

## Model

| member | source | states |
|---|---|---|
| `ConnectedSources.ConnectCases` | main.py:23-36 | an unsupported name fails with 404 and leaves the list unchanged; an already connected name gets "already connected" with the list unchanged; a new supported name is appended once at the end, earlier entries kept; failure iff the name is unsupported |
| `ConnectedSources.ConnectIdempotent` | main.py:27-36 | connecting the same name a second time, at any timestamp, leaves the list as the first call left it and answers "already connected" |
| `ConnectedSources.ConnectPreservesWellFormed` | main.py:24-35 | the invariant "names pairwise distinct and each a key of fake_data_sources" survives every connect call |
| `ConnectedSources.Connect` | main.py:23-36 | the reply is an error iff the name is unsupported; the old list is always kept as a prefix and grows by at most one entry |
| `ConnectedSources.AllData` | main.py:40-43 | the concatenation of the connected sources' records in list order, whose length is the sum of their record counts |
| `ConnectedSources.AllDataMembers` | main.py:40-43 | a record is in get_data's data iff some connected source holds it |
| `ConnectedSources.AllDataSnoc` | main.py:41-43 | connecting one more source extends the concatenation by exactly that source's records |
| `ConnectedSources.SyncHub.constructor` | main.py:11 | the application starts with no connected sources, and the invariant holds |
| `ConnectedSources.SyncHub.ConnectSource` | main.py:22-36 | the duplicate-scanning loop produces exactly the list and reply of the `Connect` specification, and keeps the invariant |
| `ConnectedSources.SyncHub.GetData` | main.py:38-44 | returns the current list and the concatenation of fake_data_sources[name] over it in list order, changing nothing |
| `ConnectedSources.SyncHub.ListSources` | main.py:46-48 | returns the current list exactly, changing nothing |
| `BaseLoader.Name` | loaders/base_loader.py:4-6 | name() dispatched over the loaders: a mock loader's name has a static mapping; a CSV loader reports its current source name |
| `BaseLoader.Load` | loaders/base_loader.py:8-10 | load() dispatched over the loaders: a mock loader gives its two records; a CSV loader gives its current records |
| `BaseLoader.InitialName` | loaders/loader_registry.py:4-5 | the name a fresh instance reports, under which register_loader files it: a mock class's name has a static mapping, the CSV class's is "CSV" |
| `LoaderRegistry.InsertEffect` | loaders/loader_registry.py:5 | inserting under a key maps it to the new value, leaves every other key as it was, keeps the size when the key was present and adds one when it was new |
| `LoaderRegistry.Registry.constructor` | loaders/loader_registry.py:1 | the registry starts empty |
| `LoaderRegistry.Registry.Register` | loaders/loader_registry.py:5 | afterwards the loader's current name maps to it (replacing any earlier loader); other names are untouched; size unchanged on replacement, one more on a new name |
| `LoaderRegistry.Registry.RegisterLoader` | loaders/loader_registry.py:3-6 | builds one instance of the class, registers it under the name a fresh instance reports, and returns the class unchanged |
| `LoaderRegistry.ImportSapModule` | loaders/sap_loader.py:15 | importing the module registers a FakeSAP loader under "FakeSAP" |
| `LoaderRegistry.ImportWorkdayModule` | loaders/workday_loader.py:14 | importing the module registers a FakeWorkday loader under "FakeWorkday" |
| `LoaderRegistry.ImportCsvModule` | loaders/csv_loader.py:19 | importing the module registers one fresh, empty CSV loader under "CSV" |
| `LoaderRegistry.CsvRenameKeepsKey` | loaders/csv_loader.py:12-19 | after start-up registration and set_data(n, recs), the keys are still FakeSAP, FakeWorkday and CSV; the loader under "CSV" reports name n and records recs; a new name n is not a key |
| `CsvLoader.CSVLoader.constructor` | loaders/csv_loader.py:5-7 | a fresh CSV loader has name "CSV" and loads the empty sequence |
| `CsvLoader.CSVLoader.Name` | loaders/csv_loader.py:9-10 | name(): the current source name, read without changing the loader |
| `CsvLoader.CSVLoader.Load` | loaders/csv_loader.py:16-17 | load(): the current records, read without changing the loader; an unset loader gives the empty sequence |
| `CsvLoader.CSVLoader.SetData` | loaders/csv_loader.py:12-14 | afterwards name() is the new name and load() is exactly the new records; nothing earlier survives |
| `SapLoader.Name` | loaders/sap_loader.py:6-7 | the constant name has a static field mapping |
| `SapLoader.Load` | loaders/sap_loader.py:9-13 | the constant load() gives two records whose keys are all FakeSAP source keys |
| `SapLoader.NameHasMapping` | loaders/sap_loader.py:6-7 | the name is "FakeSAP", a key of fake_field_mappings whose table is the FakeSAP table |
| `SapLoader.LoadShape` | loaders/sap_loader.py:9-13 | load() gives two records, emp_id "001" then "002", with distinct emp_id values |
| `SapLoader.RecordsUseMappedKeys` | loaders/sap_loader.py:10-13 | every record key is a FakeSAP source key; every record has string emp_id and emp_name, which map to employee_id and name |
| `WorkdayLoader.Name` | loaders/workday_loader.py:5-6 | the constant name has a static field mapping |
| `WorkdayLoader.Load` | loaders/workday_loader.py:8-12 | the constant load() gives two records whose keys are all FakeWorkday source keys |
| `WorkdayLoader.NameHasMapping` | loaders/workday_loader.py:5-6 | the name is "FakeWorkday", a key of fake_field_mappings whose table is the FakeWorkday table |
| `WorkdayLoader.LoadShape` | loaders/workday_loader.py:8-12 | load() gives two records, id "001" then "002", with distinct id values |
| `WorkdayLoader.RecordsUseMappedKeys` | loaders/workday_loader.py:9-12 | every record key is a FakeWorkday source key; every record has string id and name, which map to employee_id and name |
| `FieldMapper.SapMappingIsBijection` | field_mapper.py:2-9 | every FakeSAP target is in the six-field vocabulary, distinct keys have distinct targets, and every vocabulary field is hit |
| `FieldMapper.WorkdayMappingIsBijection` | field_mapper.py:10-17 | every FakeWorkday target is in the six-field vocabulary, distinct keys have distinct targets, and every vocabulary field is hit |
| `FieldMapper.TwoDisjointSources` | field_mapper.py:1-18 | exactly the sources FakeSAP and FakeWorkday are defined, and their source-key sets are disjoint |
| `FieldMapper.BijectionOntoTargets` | field_mapper.py:1-18 | a table with an inverse that recovers every key and covers the vocabulary is a bijection onto it |
| `Schema.RequiredStr` | schema.py:5-6 | a required string field succeeds iff present as a string; absent or None gives Missing, a number gives WrongType |
| `Schema.OptionalNum` | schema.py:7 | salary absent or None defaults to None; a number is kept |
| `Schema.OptionalStr` | schema.py:8-10 | an optional string field absent or None defaults to None; a string is kept |
| `Schema.MakeEmployee` | schema.py:4-10 | a constructed record's employee_id and name are the given strings |
| `Schema.MissingRequiredFails` | schema.py:5-6 | construction fails with Missing(employee_id) or Missing(name) when that field is absent or None; a Missing error only ever names a required field |
| `Schema.WellTypedSucceeds` | schema.py:4-10 | with both required fields strings and no optional field mistyped, construction succeeds; each optional field is its value or None |
| `Schema.VocabularyHasSixFields` | llm_mapper.py:15 | the prompt's list holds six distinct names, and as a set it is the target vocabulary |
| `Schema.FieldsRoundTrip` | schema.py:4-10 | every UnifiedEmployee, given back its own six fields (None as null), constructs to itself, and those field names are exactly the target vocabulary |
| `Schema.OnlyVocabularyFieldsRead` | schema.py:4-10 | construction gives the same result when every key outside the six-field vocabulary is dropped: extra keys are ignored |
| `LlmMapper.LeadLen` | llm_mapper.py:31 | the leading run of whitespace that strip removes: all of it whitespace, followed by a non-whitespace character or the end |
| `LlmMapper.TrailLen` | llm_mapper.py:31 | the trailing run of whitespace that strip removes: all of it whitespace, preceded by a non-whitespace character or the start |
| `LlmMapper.Strip` | llm_mapper.py:31 | the stripped reply begins and ends with non-whitespace (or is empty) and is no longer than the reply |
| `LlmMapper.StripSplit` | llm_mapper.py:31 | the reply is whitespace + stripped reply + whitespace |
| `LlmMapper.ExtractSpan` | llm_mapper.py:34-36 | a span found by the regex is at least two characters, starts with `{` and ends with `}` |
| `LlmMapper.ExtractSpanNone` | llm_mapper.py:34-35 | the regex finds no match iff no `{` is followed somewhere by a `}` |
| `LlmMapper.ExtractSpanChosen` | llm_mapper.py:34-36 | a found span is the leftmost-starting, then longest, match of `\{.*\}` with newlines allowed |
| `LlmMapper.ChosenMatchIsSpan` | llm_mapper.py:34-36 | conversely, the leftmost-longest match is the span returned |
| `LlmMapper.SpanShape` | llm_mapper.py:34-36 | the span is a contiguous substring of the reply, at least two characters, starting with `{` and ending with `}` |
| `LlmMapper.SurroundingTextIgnored` | llm_mapper.py:34-36 | text with no `{` before, and text with no `}` after, do not change the span |
| `LlmMapper.StripKeepsSpan` | llm_mapper.py:31-34 | stripping never changes the span |
| `LlmMapper.GetDynamicFieldMapping` | llm_mapper.py:31-44 | a result is only ever what the parser returned for the reply's span; a ValueError carries the fixed message and occurs only when the reply has no span |
| `LlmMapper.MappingOutcome` | llm_mapper.py:31-44 | ValueError iff the reply has no `{...}` match; otherwise success iff the parser accepts the span, with the parser's value, and failure re-raises the parser's own error; there is no default mapping |
| `LlmMapper.PaddingIgnored` | llm_mapper.py:31-44 | leading or trailing whitespace around the reply does not change the outcome |

## Left out

- The model call in llm_mapper.py (lines 1-30) is not modelled: environment loading, the chat client, prompt formatting and `llm.invoke` are network I/O. The reply string is an input.
- `json.loads` is the parameter `loads`. JSON grammar is not modelled, nor whether the parsed value is a dict.
- The `print` logging in llm_mapper.py is not modelled.
- FastAPI routing, the pydantic `Source` request model and the `/` liveness route are not modelled. `HTTPException` is the `HttpError` result.
- `datetime.now()` is a caller-supplied timestamp.
- `mock_sources.fake_data_sources` is not part of this model. It is the abstract map `SyncHub.dataSources`, which no operation changes.
- `connected_sources` is unsynchronised process-wide state. It is modelled sequentially, with no concurrency.
- `list_sources` and `get_data` return the live Python list, so later changes show through that alias. The model returns a value copy.
- `CSVLoader.load()` returns its own list object, so a caller mutating it would change the loader. The model returns a value.
- `CsvLoader.CSVLoader.SetData`: set_data keeps the caller's list, so later changes to that list show through load(); the model stores a value.
- loaders/base_loader.py's abstract class is a closed datatype of the three loaders in this repository. Dafny traits are not used, so further loader classes cannot be added.
- The registry's `get`, `all` and `remove` operations are not in the code, so they are not modelled.
- agent.py (the SQL query agent) and models.py (table declarations) are not part of this model.
- Normalisation, upsert, statistics, query logs, disconnect and CSV upload handling are not part of this model.
- `Schema.MakeEmployee`: pydantic's type coercions are not modelled. These include numeric strings or floats for `salary`, and numbers for string fields under pydantic v1. A value of the wrong kind gives `WrongType`.
- `Schema.MakeEmployee`: pydantic reports every failing field at once. The model reports the first, in declaration order.
- `Schema.OptionalNum`: salary is `Optional[float]`, but the model holds integers, as the two mock loaders' records do. Fractional salaries are not modelled.
