/** The tabular exporter: writes the merged lead rows under a fixed nine-column header.
    The file system is a map from file names to the rows of cells each file holds; CSV
    quoting and the file's encoding are not modelled. */
module Utils {
  import opened Python

  /** The column order of the exported file. */
  const Header: seq<string> := [
    "id", "company_name", "website", "linkedin_url", "twitter_url",
    "phone_number", "description", "outreach_subject", "outreach_body"
  ]

  /** Where the write can fail: opening the file, or writing CSV record `record` (the header
      is record 0). A record is one row of cells; a cell holding a newline makes the writer
      quote it across several physical lines of the file. */
  datatype IoFault = NoFault | OpenFails | WriteFailsAt(record: nat)

  /** The files on disk, each as the rows of cells it holds. */
  class FileSystem {
    var files: map<string, seq<seq<string>>>

    constructor (files: map<string, seq<seq<string>>>)
      ensures this.files == files
    {
      this.files := files;
    }
  }

  /** How the CSV writer renders one value: `None` as the empty cell, anything else as `str()`. */
  function Cell(v: Value): string {
    if v.Null? then "" else PyStr(v)
  }

  /** A cell is empty exactly for `None` and the empty string, and a string is written as is. */
  lemma CellEmpty(v: Value)
    ensures Cell(v) == "" <==> v == Null || v == Str("")
    ensures v.Str? ==> Cell(v) == v.s
  {
  }

  /** The cells written for one row. */
  function CsvRow(row: Record): (cells: seq<string>)
    ensures |cells| == |Header|
    ensures cells[0] == Cell(Or(Get(row, "id", Null), Get(row, "company_name", Null)))
    ensures forall k :: 1 <= k < |Header| ==> cells[k] == Cell(Get(row, Header[k], Str("")))
  {
    [
      Cell(Or(Get(row, "id", Null), Get(row, "company_name", Null))),
      Cell(Get(row, "company_name", Str(""))),
      Cell(Get(row, "website", Str(""))),
      Cell(Get(row, "linkedin_url", Str(""))),
      Cell(Get(row, "twitter_url", Str(""))),
      Cell(Get(row, "phone_number", Str(""))),
      Cell(Get(row, "description", Str(""))),
      Cell(Get(row, "outreach_subject", Str(""))),
      Cell(Get(row, "outreach_body", Str("")))
    ]
  }

  /** The whole file for `rows`: the header record, then one record per row in order. */
  function CsvRecords(rows: seq<Record>): (records: seq<seq<string>>)
    ensures |records| == |rows| + 1
    ensures records[0] == Header
    ensures forall k :: 1 <= k < |records| ==> records[k] == CsvRow(rows[k - 1])
  {
    [Header] + seq(|rows|, k requires 0 <= k < |rows| => CsvRow(rows[k]))
  }

  /** The files after `save_to_csv(filename, rows)` under `fault`. */
  function Saved(files: map<string, seq<seq<string>>>, filename: string, rows: seq<Record>, fault: IoFault)
    : (after: map<string, seq<seq<string>>>)
    ensures rows == [] || fault.OpenFails? ==> after == files
    ensures rows != [] && fault.NoFault? ==> after == files[filename := CsvRecords(rows)]
  {
    if rows == [] then files
    else
      match fault
      case NoFault => files[filename := CsvRecords(rows)]
      case OpenFails => files
      case WriteFailsAt(n) =>
        files[filename := CsvRecords(rows)[..if n <= |rows| then n else |rows| + 1]]
  }

  /** Saving touches no file but the one named. */
  lemma SavedTouchesOnlyItsFile(files: map<string, seq<seq<string>>>, filename: string, rows: seq<Record>,
                                fault: IoFault, other: string)
    requires other != filename
    ensures other in Saved(files, filename, rows, fault) <==> other in files
    ensures other in files ==> Saved(files, filename, rows, fault)[other] == files[other]
  {
  }

  /** A write failing at record `n` leaves the first `n` records of the file. */
  lemma SavedStopsAt(files: map<string, seq<seq<string>>>, filename: string, rows: seq<Record>, n: nat)
    requires rows != [] && n <= |rows|
    ensures Saved(files, filename, rows, WriteFailsAt(n)) == files[filename := CsvRecords(rows)[..n]]
  {
  }

  /** The first `i + 2` records are the first `i + 1` records and the record of row `i`. */
  lemma CsvRecordsStep(rows: seq<Record>, i: nat)
    requires i < |rows|
    ensures CsvRecords(rows)[..i + 2] == CsvRecords(rows)[..i + 1] + [CsvRow(rows[i])]
  {
    var records := CsvRecords(rows);
    assert records[..i + 2] == records[..i + 1] + [records[i + 1]];
  }

  /** `save_to_csv(filename, rows)`. Nothing is written for no rows; otherwise the file is
      created or truncated and written record by record. A failure is caught: whatever was
      written stays, and nothing propagates. */
  method SaveToCsv(fs: FileSystem, filename: string, rows: seq<Record>, fault: IoFault)
    modifies fs
    ensures fs.files == Saved(old(fs.files), filename, rows, fault)
  {
    if rows == [] || fault.OpenFails? {
      return;
    }
    ghost var before := fs.files;
    fs.files := fs.files[filename := []];
    if fault == WriteFailsAt(0) {
      SavedStopsAt(before, filename, rows, 0);
      return;
    }
    fs.files := fs.files[filename := [Header]];
    assert CsvRecords(rows)[..1] == [Header];
    var i := 0;
    while i < |rows|
      invariant 0 <= i <= |rows|
      invariant fault.WriteFailsAt? ==> fault.record > i
      invariant fs.files == before[filename := CsvRecords(rows)[..i + 1]]
    {
      if fault == WriteFailsAt(i + 1) {
        SavedStopsAt(before, filename, rows, i + 1);
        return;
      }
      CsvRecordsStep(rows, i);
      fs.files := fs.files[filename := fs.files[filename] + [CsvRow(rows[i])]];
      i := i + 1;
    }
    assert CsvRecords(rows)[..i + 1] == CsvRecords(rows);
  }
}
