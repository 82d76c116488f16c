/** CSVLoader (loaders/csv_loader.py): a loader whose name and records are replaced by set_data. */
module CsvLoader {
  import opened Values

  class CSVLoader {
    var records: seq<Record>
    var sourceName: string

    /** A fresh loader is called "CSV" and holds no records. */
    constructor ()
      ensures sourceName == "CSV" && records == []
    {
      records := [];
      sourceName := "CSV";
    }

    /** name(): reads the current source name. */
    function Name(): string
      reads this
    {
      sourceName
    }

    /** load(): the current records; an unset loader gives the empty sequence. */
    function Load(): seq<Record>
      reads this
    {
      records
    }

    /** set_data: replaces both the name and the whole record set. */
    method SetData(name: string, newRecords: seq<Record>)
      modifies this
      ensures Name() == name && Load() == newRecords
    {
      sourceName := name;
      records := newRecords;
    }
  }
}
