/**
 * The loader shape of loaders/base_loader.py: name() and load(). The
 * three concrete loaders are the variants; a CSV variant refers to its
 * mutable loader object.
 */
module BaseLoader {
  import opened Values
  import SapLoader
  import WorkdayLoader
  import opened CsvLoader
  import FieldMapper

  datatype Loader = FakeSAP | FakeWorkday | Csv(csv: CSVLoader)

  /** The objects a loader's answers depend on. */
  function Footprint(l: Loader): set<object> {
    if l.Csv? then {l.csv} else {}
  }

  /** name(): a mock loader's name always has a static field mapping. */
  function Name(l: Loader): (n: string)
    reads Footprint(l)
    ensures !l.Csv? ==> n in FieldMapper.FakeFieldMappings
    ensures l.Csv? ==> n == l.csv.sourceName
  {
    match l
    case FakeSAP => SapLoader.Name()
    case FakeWorkday => WorkdayLoader.Name()
    case Csv(c) => c.Name()
  }

  /** load(): a mock loader always yields its two constant records. */
  function Load(l: Loader): (rs: seq<Record>)
    reads Footprint(l)
    ensures !l.Csv? ==> |rs| == 2
    ensures l.Csv? ==> rs == l.csv.records
  {
    match l
    case FakeSAP => SapLoader.Load()
    case FakeWorkday => WorkdayLoader.Load()
    case Csv(c) => c.Load()
  }

  /** The loader classes, as register_loader receives them. */
  datatype LoaderClass = FakeSAPLoader | FakeWorkdayLoader | CSVLoaderClass

  /** The name a freshly constructed instance of the class reports. */
  function InitialName(cls: LoaderClass): (n: string)
    ensures cls != CSVLoaderClass ==> n in FieldMapper.FakeFieldMappings
    ensures cls == CSVLoaderClass ==> n == "CSV"
  {
    match cls
    case FakeSAPLoader => SapLoader.Name()
    case FakeWorkdayLoader => WorkdayLoader.Name()
    case CSVLoaderClass => "CSV"
  }

  /** Whether l is an instance of cls. */
  predicate InstanceOf(l: Loader, cls: LoaderClass) {
    match cls
    case FakeSAPLoader => l.FakeSAP?
    case FakeWorkdayLoader => l.FakeWorkday?
    case CSVLoaderClass => l.Csv?
  }
}
