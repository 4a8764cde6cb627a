/** The storage side of ABQ Data Entry: the CSV file model, the settings
    store, the choice of SQL queries when a record is saved, and the way the
    corporate REST client reads a file-existence answer. Files, databases and
    the network are replaced by plain values: a CSV file is its header and
    its rows, each row the column-to-text map the `csv` module writes and
    reads back. */
module Models {
  import opened Common
  import opened Decimals
  import opened TkVars
  import opened Constants

  /** A record as the application passes it around: field name to value. */
  type Record = map<string, PyValue>

  /** A CSV row: column name to cell text. */
  type Row = map<string, string>

  /** A CSV file on disk: its header line and its data rows. */
  datatype CsvFile = CsvFile(header: seq<string>, rows: seq<Row>)

  /** The errors the model raises. */
  datatype ModelError =
    | MissingFields(missing: set<string>)   // "File is missing fields: ..."
    | ExtraFields(extra: set<string>)       // DictWriter: "dict contains fields not in fieldnames"
    | IndexError
    | KeyError(key: string)

  /** The key of a database record: date, time, lab and plot. */
  datatype RowKey = RowKey(date: PyValue, time: PyValue, lab: PyValue, plot: PyValue)

  // ---------------------------------------------------------------------
  // The CSV schema
  // ---------------------------------------------------------------------

  /** `CSVModel.fields`: the columns in order, with their field types. */
  const CsvFields: seq<(string, FieldType)> := [
    ("Date", IsoDateString), ("Time", StringList), ("Technician", String),
    ("Lab", ShortStringList), ("Plot", StringList), ("Seed Sample", String),
    ("Humidity", DecimalType), ("Light", DecimalType), ("Temperature", DecimalType),
    ("Equipment Fault", BooleanType), ("Plants", IntegerType), ("Blossoms", IntegerType),
    ("Fruit", IntegerType), ("Min Height", DecimalType), ("Max Height", DecimalType),
    ("Med Height", DecimalType), ("Notes", LongString)]

  /** The header `DictWriter` writes: the schema's field names, in order. */
  const FieldNames: seq<string> := [
    "Date", "Time", "Technician", "Lab", "Plot", "Seed Sample", "Humidity", "Light",
    "Temperature", "Equipment Fault", "Plants", "Blossoms", "Fruit", "Min Height",
    "Max Height", "Med Height", "Notes"]

  const FieldSet: set<string> := set k | k in FieldNames

  /** The boolean-typed fields, `bool_fields` in `get_all_records`. */
  const BoolFieldList: seq<string> := ["Equipment Fault"]

  /** The field lists above are the names, and the boolean-typed names, of
      the schema. */
  lemma SchemaLists()
    ensures |FieldNames| == |CsvFields|
    ensures forall i :: 0 <= i < |CsvFields| ==> FieldNames[i] == CsvFields[i].0
    ensures forall k :: k in BoolFieldList <==> (k, BooleanType) in CsvFields
  {
  }

  /** The texts `get_all_records` reads as true. */
  const Trues: seq<string> := ["true", "yes", "1"]

  // ---------------------------------------------------------------------
  // Writing: what `csv.DictWriter` puts in a row
  // ---------------------------------------------------------------------

  /** Python's `str(value)`. */
  function PyStr(v: PyValue): string {
    match v
    case Str(s) => s
    case Int(i) => IntText(i)
    case Float(d) => PointText(d)
    case Bool(b) => if b then "True" else "False"
    case Null => "None"
  }

  /** The text the csv writer gives a value: `None` becomes an empty cell,
      everything else its `str()`. */
  function CellText(v: PyValue): string {
    if v.Null? then "" else PyStr(v)
  }

  /** `DictWriter.writerow(data)` with the schema as field names: a key
      outside the schema raises, a missing key writes an empty cell. */
  function WriteRow(data: Record): (r: Result<Row, ModelError>)
    ensures r.Ok? <==> data.Keys <= FieldSet
    ensures r.Ok? ==> r.value.Keys == FieldSet
    ensures r.Ok? ==> forall k :: k in data ==> r.value[k] == CellText(data[k])
    ensures r.Ok? ==> forall k :: k in FieldSet && k !in data ==> r.value[k] == ""
    ensures r.Err? ==> r.error == ExtraFields(data.Keys - FieldSet)
  {
    if data.Keys <= FieldSet then
      Ok(map k | k in FieldSet :: if k in data then CellText(data[k]) else "")
    else Err(ExtraFields(data.Keys - FieldSet))
  }

  /** `writerows(records)`: the rows written before the first record that
      raises, and that record's error. */
  function WriteRows(records: seq<Record>): (r: (seq<Row>, Option<ModelError>))
    ensures |r.0| <= |records|
    ensures forall i :: 0 <= i < |r.0| ==> WriteRow(records[i]) == Ok(r.0[i])
    ensures r.1.None? <==> |r.0| == |records|
    ensures r.1.Some? ==> WriteRow(records[|r.0|]) == Err(r.1.value)
  {
    if records == [] then ([], None)
    else match WriteRow(records[0])
      case Err(e) => ([], Some(e))
      case Ok(row) =>
        var rest := WriteRows(records[1..]);
        ([row] + rest.0, rest.1)
  }

  /** The file after `writerow` appended a row; a new file gets the header. */
  function AppendRow(file: Option<CsvFile>, row: Row): (r: CsvFile)
    ensures file.None? ==> r == CsvFile(FieldNames, [row])
    ensures file.Some? ==> r.header == file.value.header && r.rows == file.value.rows + [row]
  {
    match file
    case None => CsvFile(FieldNames, [row])
    case Some(f) => CsvFile(f.header, f.rows + [row])
  }

  // ---------------------------------------------------------------------
  // Reading: `get_all_records`
  // ---------------------------------------------------------------------

  /** A row as `DictReader` returns it: every cell a string. */
  function ReadRow(row: Row): (r: Record)
    ensures r.Keys == row.Keys
  {
    map k | k in row :: Str(row[k])
  }

  /** The text `.lower() in trues` is applied to. */
  function TextOf(v: PyValue): string {
    if v.Str? then v.s else ""
  }

  /** The inner loop of the boolean correction: each key of `keys`, in turn,
      is replaced by whether its lowered text is one of `Trues`; a key the
      record lacks raises `KeyError`. */
  function CoerceFields(rec: Record, keys: seq<string>): (r: Result<Record, ModelError>)
    requires forall i, j :: 0 <= i < j < |keys| ==> keys[i] != keys[j]
    ensures r.Ok? <==> forall k :: k in keys ==> k in rec
    ensures r.Ok? ==> r.value.Keys == rec.Keys
    ensures r.Ok? ==> forall k :: k in rec ==>
              r.value[k] == if k in keys then Bool(Lower(TextOf(rec[k])) in Trues) else rec[k]
  {
    if keys == [] then Ok(rec)
    else if keys[0] !in rec then Err(KeyError(keys[0]))
    else CoerceFields(rec[keys[0] := Bool(Lower(TextOf(rec[keys[0]])) in Trues)], keys[1..])
  }

  /** One row after the boolean correction. */
  function CoerceRow(row: Row): Result<Record, ModelError> {
    CoerceFields(ReadRow(row), BoolFieldList)
  }

  /** The whole correction loop over the rows, stopping at the first error. */
  function CoerceAll(rows: seq<Row>): (r: Result<seq<Record>, ModelError>)
    ensures r.Ok? <==> forall i :: 0 <= i < |rows| ==> CoerceRow(rows[i]).Ok?
    ensures r.Ok? ==> |r.value| == |rows| && forall i :: 0 <= i < |rows| ==> Ok(r.value[i]) == CoerceRow(rows[i])
  {
    if rows == [] then Ok([])
    else match CoerceRow(rows[0])
      case Err(e) => Err(e)
      case Ok(rec) =>
        match CoerceAll(rows[1..])
        case Err(e) => Err(e)
        case Ok(rest) => Ok([rec] + rest)
  }

  /** `get_all_records`: no file reads as no records; a header lacking a
      schema column raises; otherwise the rows, corrected. */
  function ReadRecords(file: Option<CsvFile>): (r: Result<seq<Record>, ModelError>)
    ensures file.None? ==> r == Ok([])
    ensures file.Some? && Missing(file.value.header) != {} ==> r == Err(MissingFields(Missing(file.value.header)))
    ensures file.Some? && Missing(file.value.header) == {} ==> r == CoerceAll(file.value.rows)
  {
    match file
    case None => Ok([])
    case Some(f) =>
      if Missing(f.header) != {} then Err(MissingFields(Missing(f.header)))
      else CoerceAll(f.rows)
  }

  /** The schema columns a header lacks. */
  function Missing(header: seq<string>): set<string> {
    FieldSet - set k | k in header
  }

  /** The schema check passes exactly when every schema column is in the
      header. */
  lemma MissingNone(header: seq<string>)
    ensures Missing(header) == {} <==> forall k :: k in FieldNames ==> k in header
  {
    var r := Missing(header);
    if r == {} {
      forall k | k in FieldNames ensures k in header {
        assert k !in r;
      }
    } else {
      var k :| k in r;
      assert k in FieldNames && k !in header;
    }
  }

  /** Python's `seq[i]` index resolution: negative indexes count from the end. */
  function PyIndex(i: int, n: nat): (r: Option<nat>)
    ensures r.Some? <==> -(n as int) <= i < n
    ensures r.Some? ==> r.value < n && (r.value == i || r.value == n + i)
  {
    if 0 <= i < n then Some(i) else if -(n as int) <= i < 0 then Some(n + i) else None
  }

  // ---------------------------------------------------------------------
  // CSVModel
  // ---------------------------------------------------------------------

  /** `CSVModel`: the CSV file it reads and writes (`None` while the file
      does not exist). */
  class CSVModel {
    var file: Option<CsvFile>

    constructor (file: Option<CsvFile>)
      ensures this.file == file
    {
      this.file := file;
    }

    /** `get_all_records`, one row at a time. */
    method GetAllRecords() returns (r: Result<seq<Record>, ModelError>)
      ensures r == ReadRecords(file)
    {
      if file.None? {
        return Ok([]);
      }
      var f := file.value;
      if Missing(f.header) != {} {
        return Err(MissingFields(Missing(f.header)));
      }
      r := CoerceRows(f.rows);
    }

    /** `get_record(rownum)`: the row at a Python index, `IndexError` when
      there is none. */
    method GetRecord(rownum: int) returns (r: Result<Record, ModelError>)
      ensures ReadRecords(file).Err? ==> r == Err(ReadRecords(file).error)
      ensures ReadRecords(file).Ok? ==>
                var records := ReadRecords(file).value;
                match PyIndex(rownum, |records|)
                case None => r == Err(IndexError)
                case Some(i) => r == Ok(records[i])
    {
      var all := GetAllRecords();
      if all.Err? {
        return Err(all.error);
      }
      match PyIndex(rownum, |all.value|)
      case None =>
        r := Err(IndexError);
      case Some(i) =>
        r := Ok(all.value[i]);
    }

    /** `save_record(data, rownum)`. Without a row number the record is
      appended, after a header when the file is new; with one, every record
      is read, the one at `rownum` replaced, and the file rewritten with a
      single header. A write error leaves what was written before it. */
    method SaveRecord(data: Record, rownum: Option<int>) returns (err: Option<ModelError>)
      modifies this
      ensures rownum.None? && WriteRow(data).Ok? ==>
                err.None? && file == Some(AppendRow(old(file), WriteRow(data).value))
      ensures rownum.None? && WriteRow(data).Err? ==>
                err == Some(WriteRow(data).error) &&
                file == Some(if old(file).None? then CsvFile(FieldNames, []) else old(file).value)
      ensures rownum.Some? && ReadRecords(old(file)).Err? ==>
                err == Some(ReadRecords(old(file)).error) && file == old(file)
      ensures rownum.Some? && ReadRecords(old(file)).Ok? ==>
                var records := ReadRecords(old(file)).value;
                match PyIndex(rownum.value, |records|)
                case None => err == Some(IndexError) && file == old(file)
                case Some(i) =>
                  var written := WriteRows(records[i := data]);
                  file == Some(CsvFile(FieldNames, written.0)) && err == written.1
    {
      if rownum.None? {
        match WriteRow(data) {
          case Ok(row) =>
            file := Some(AppendRow(file, row));
            err := None;
          case Err(e) =>
            if file.None? {
              file := Some(CsvFile(FieldNames, []));
            }
            err := Some(e);
        }
        return;
      }
      var all := GetAllRecords();
      if all.Err? {
        return Some(all.error);
      }
      var index := PyIndex(rownum.value, |all.value|);
      if index.None? {
        return Some(IndexError);
      }
      err := Rewrite(all.value[index.value := data]);
    }

    /** The rewriting half of an update: a new file with the header, then
      the records written one by one until one raises. */
    method Rewrite(records: seq<Record>) returns (err: Option<ModelError>)
      modifies this
      ensures file == Some(CsvFile(FieldNames, WriteRows(records).0))
      ensures err == WriteRows(records).1
    {
      var written;
      written, err := WriteAll(records);
      file := Some(CsvFile(FieldNames, written));
    }
  }

  /** The boolean-correction loop of `get_all_records`. */
  method CoerceRows(rows: seq<Row>) returns (r: Result<seq<Record>, ModelError>)
    ensures r == CoerceAll(rows)
  {
    var records: seq<Record> := [];
    var i := 0;
    while i < |rows|
      invariant 0 <= i <= |rows|
      invariant |records| == i
      invariant forall j :: 0 <= j < i ==> CoerceRow(rows[j]) == Ok(records[j])
    {
      var c := CoerceRow(rows[i]);
      if c.Err? {
        CoerceAllStops(rows, i);
        return Err(c.error);
      }
      records := records + [c.value];
      i := i + 1;
    }
    CoerceAllSucceeds(rows, records);
    r := Ok(records);
  }

  /** `writerows`: the records written one by one until one raises. */
  method WriteAll(records: seq<Record>) returns (written: seq<Row>, err: Option<ModelError>)
    ensures (written, err) == WriteRows(records)
  {
    written := [];
    var i := 0;
    while i < |records|
      invariant 0 <= i <= |records|
      invariant |written| == i
      invariant forall j :: 0 <= j < i ==> WriteRow(records[j]) == Ok(written[j])
    {
      var w := WriteRow(records[i]);
      if w.Err? {
        WriteRowsStops(records, written);
        return written, Some(w.error);
      }
      written := written + [w.value];
      i := i + 1;
    }
    WriteRowsSucceeds(records, written);
    err := None;
  }

  lemma {:induction false} WriteRowsStops(records: seq<Record>, written: seq<Row>)
    requires |written| < |records| && WriteRow(records[|written|]).Err?
    requires forall j :: 0 <= j < |written| ==> WriteRow(records[j]) == Ok(written[j])
    ensures WriteRows(records) == (written, Some(WriteRow(records[|written|]).error))
  {
    if written != [] {
      WriteRowsStops(records[1..], written[1..]);
      assert [written[0]] + written[1..] == written;
    }
  }

  lemma {:induction false} WriteRowsSucceeds(records: seq<Record>, written: seq<Row>)
    requires |written| == |records|
    requires forall j :: 0 <= j < |records| ==> WriteRow(records[j]) == Ok(written[j])
    ensures WriteRows(records) == (written, None)
  {
    if records != [] {
      WriteRowsSucceeds(records[1..], written[1..]);
      assert [written[0]] + written[1..] == written;
    }
  }

  /** Reading one more row adds its record at the end. */
  lemma {:induction false} CoerceAllAppend(rows: seq<Row>, row: Row)
    requires CoerceAll(rows).Ok? && CoerceRow(row).Ok?
    ensures CoerceAll(rows + [row]) == Ok(CoerceAll(rows).value + [CoerceRow(row).value])
  {
    var records := CoerceAll(rows).value + [CoerceRow(row).value];
    forall j | 0 <= j < |rows + [row]| ensures CoerceRow((rows + [row])[j]) == Ok(records[j]) {
      if j < |rows| {
        assert (rows + [row])[j] == rows[j];
      }
    }
    CoerceAllSucceeds(rows + [row], records);
  }

  lemma {:induction false} CoerceAllStops(rows: seq<Row>, i: nat)
    requires i < |rows| && CoerceRow(rows[i]).Err?
    requires forall j :: 0 <= j < i ==> CoerceRow(rows[j]).Ok?
    ensures CoerceAll(rows) == Err(CoerceRow(rows[i]).error)
  {
    if i > 0 {
      CoerceAllStops(rows[1..], i - 1);
    }
  }

  lemma {:induction false} CoerceAllSucceeds(rows: seq<Row>, records: seq<Record>)
    requires |records| == |rows|
    requires forall j :: 0 <= j < |rows| ==> CoerceRow(rows[j]) == Ok(records[j])
    ensures CoerceAll(rows) == Ok(records)
  {
    if rows != [] {
      CoerceAllSucceeds(rows[1..], records[1..]);
      assert [records[0]] + records[1..] == records;
    }
  }

  // ---------------------------------------------------------------------
  // What a save leaves for the next read
  // ---------------------------------------------------------------------

  /** The text a boolean is written as reads back as that boolean. */
  lemma BoolCellReadsBack(b: bool)
    ensures (Lower(CellText(Bool(b))) in Trues) == b
  {
    if b {
      assert Lower("True") == "true";
    } else {
      assert Lower("False") == "false";
    }
  }

  /** A row with exactly the schema's columns, read, written back and read
      again, gives the same record: rewriting the file does not change the
      rows it does not replace. */
  lemma RowRoundTrip(row: Row)
    requires row.Keys == FieldSet
    ensures CoerceRow(row).Ok?
    ensures WriteRow(CoerceRow(row).value).Ok?
    ensures CoerceRow(WriteRow(CoerceRow(row).value).value) == CoerceRow(row)
  {
    var rec := CoerceRow(row).value;
    assert rec.Keys == FieldSet;
    var written := WriteRow(rec).value;
    var again := CoerceRow(written).value;
    assert again.Keys == rec.Keys;
    forall k | k in row
      ensures again[k] == rec[k]
    {
      assert ReadRow(written)[k] == Str(CellText(rec[k]));
      if k in BoolFieldList {
        assert rec[k] == Bool(Lower(row[k]) in Trues);
        BoolCellReadsBack(rec[k].b);
      } else {
        assert rec[k] == Str(row[k]);
      }
    }
    assert again == rec;
  }

  /** A written row always has the boolean columns, so it reads back. */
  lemma WrittenRowReads(data: Record)
    requires data.Keys <= FieldSet
    ensures CoerceRow(WriteRow(data).value).Ok?
  {
    assert "Equipment Fault" in FieldNames;
  }

  /** Appending a row adds exactly one record at the end of what is read. */
  lemma AppendReadBack(file: Option<CsvFile>, data: Record)
    requires ReadRecords(file).Ok? && data.Keys <= FieldSet
    ensures ReadRecords(Some(AppendRow(file, WriteRow(data).value)))
            == Ok(ReadRecords(file).value + [CoerceRow(WriteRow(data).value).value])
  {
    var row := WriteRow(data).value;
    WrittenRowReads(data);
    if file.None? {
      MissingNone(FieldNames);
      CoerceAllAppend([], row);
      assert [] + [row] == [row];
    } else {
      CoerceAllAppend(file.value.rows, row);
    }
  }

  /** Replacing row `rownum` of a file whose rows have exactly the schema's
      columns writes every row back, and reading the file again gives the
      old records with that one record replaced, and as many records. */
  lemma UpdateReadBack(file: CsvFile, rownum: int, data: Record)
    requires ReadRecords(Some(file)).Ok? && data.Keys <= FieldSet
    requires forall j :: 0 <= j < |file.rows| ==> file.rows[j].Keys == FieldSet
    requires PyIndex(rownum, |file.rows|).Some?
    ensures var records := ReadRecords(Some(file)).value;
            var i := PyIndex(rownum, |records|).value;
            var written := WriteRows(records[i := data]);
            written.1.None? &&
            ReadRecords(Some(CsvFile(FieldNames, written.0)))
              == Ok(records[i := CoerceRow(WriteRow(data).value).value])
  {
    var records := ReadRecords(Some(file)).value;
    var i := PyIndex(rownum, |records|).value;
    var replaced := records[i := data];
    var expected := records[i := CoerceRow(WriteRow(data).value).value];
    assert CoerceAll(file.rows) == Ok(records);
    ReplacedRowsEach(file.rows, records, i, data, replaced, expected);
    WrittenRowsRead(replaced, expected);
    ReadWritten(WriteRows(replaced).0);
  }

  /** Records that each write to a row reading back as the expected record
      are all written, and the written rows read back as the expected
      records. */
  lemma WrittenRowsRead(records: seq<Record>, expected: seq<Record>)
    requires |expected| == |records|
    requires forall j :: 0 <= j < |records| ==>
               WriteRow(records[j]).Ok? && CoerceRow(WriteRow(records[j]).value) == Ok(expected[j])
    ensures WriteRows(records).1.None?
    ensures CoerceAll(WriteRows(records).0) == Ok(expected)
  {
    var written := WriteRows(records);
    assert written.1.None? && |written.0| == |records|;
    forall j | 0 <= j < |written.0|
      ensures CoerceRow(written.0[j]) == Ok(expected[j])
    {
      assert WriteRow(records[j]) == Ok(written.0[j]);
    }
    CoerceAllSucceeds(written.0, expected);
  }

  /** With row `i` replaced, every record writes to a row that reads back
      as the old record, or for row `i` as the replacement read back. */
  lemma ReplacedRowsEach(rows: seq<Row>, records: seq<Record>, i: nat, data: Record,
                         replaced: seq<Record>, expected: seq<Record>)
    requires |rows| == |records| && data.Keys <= FieldSet
    requires forall k :: 0 <= k < |rows| ==> rows[k].Keys == FieldSet && CoerceRow(rows[k]) == Ok(records[k])
    requires i < |records| && replaced == records[i := data]
    requires expected == records[i := CoerceRow(WriteRow(data).value).value]
    ensures forall j :: 0 <= j < |replaced| ==>
              WriteRow(replaced[j]).Ok? && CoerceRow(WriteRow(replaced[j]).value) == Ok(expected[j])
  {
    forall j | 0 <= j < |replaced|
      ensures WriteRow(replaced[j]).Ok? && CoerceRow(WriteRow(replaced[j]).value) == Ok(expected[j])
    {
      if j == i {
        WrittenRowReads(data);
      } else {
        KeptRowReads(rows[j], records[j]);
      }
    }
  }

  /** A file with exactly the schema's header reads as its rows, corrected. */
  lemma ReadWritten(rows: seq<Row>)
    ensures ReadRecords(Some(CsvFile(FieldNames, rows))) == CoerceAll(rows)
  {
    MissingNone(FieldNames);
  }

  /** A record read from a row with exactly the schema's columns is written
      and read back unchanged. */
  lemma KeptRowReads(row: Row, rec: Record)
    requires row.Keys == FieldSet && CoerceRow(row) == Ok(rec)
    ensures WriteRow(rec).Ok? && CoerceRow(WriteRow(rec).value) == Ok(rec)
  {
    RowRoundTrip(row);
  }

  // ---------------------------------------------------------------------
  // SettingsModel
  // ---------------------------------------------------------------------

  /** `type(value).__name__`; a boolean is a `bool`, not an `int`. */
  function TypeName(v: PyValue): string {
    match v
    case Str(_) => "str"
    case Int(_) => "int"
    case Float(_) => "float"
    case Bool(_) => "bool"
    case Null => "NoneType"
  }

  /** One setting: its declared type name and its current value. */
  datatype Setting = Setting(stype: string, value: PyValue)

  /** `SettingsModel.fields`: each setting's type name and default value. */
  const DefaultSettings: map<string, Setting> := map[
    "autofill date" := Setting("bool", Bool(true)),
    "autofill sheet data" := Setting("bool", Bool(true)),
    "font size" := Setting("int", Int(9)),
    "font family" := Setting("str", Str("")),
    "theme" := Setting("str", Str("default")),
    "db_host" := Setting("str", Str("localhost")),
    "db_name" := Setting("str", Str("abq")),
    "weather_station" := Setting("str", Str("KBMG")),
    "abq_rest_url" := Setting("str", Str("http://localhost:8000")),
    "abq_sftp_host" := Setting("str", Str("localhost")),
    "abq_sftp_port" := Setting("int", Int(22)),
    "abq_sftp_path" := Setting("str", Str("ABQ/BLTN_IN"))]

  /** A settings file as JSON decodes it: each key maps to an object. */
  type SettingsFile = map<string, map<string, PyValue>>

  const SetErrorMessage := "Bad key or wrong variable type"

  /** The value `load` takes for a known setting: the file's `value` entry
      when the file has one for that key, otherwise the current value. */
  function LoadedValue(key: string, current: PyValue, saved: SettingsFile): PyValue {
    if key in saved && "value" in saved[key] then saved[key]["value"] else current
  }

  /** `SettingsModel`: the settings, keyed by name. The key set never
      changes; only the values do. */
  class SettingsModel {
    var fields: map<string, Setting>

    predicate Valid()
      reads this
    {
      fields.Keys == DefaultSettings.Keys
    }

    /** A model holding the defaults, then `load` from the saved file
      (`None` when there is no file). */
    constructor (saved: Option<SettingsFile>)
      ensures Valid()
      ensures forall k :: k in fields ==> fields[k].stype == DefaultSettings[k].stype
      ensures forall k :: k in fields ==>
                fields[k].value == if saved.None? then DefaultSettings[k].value
                                   else LoadedValue(k, DefaultSettings[k].value, saved.value)
    {
      fields := DefaultSettings;
      new;
      Load(saved);
    }

    /** `set(key, value)`: stores the value only for a known key whose
      declared type is the value's type name; otherwise raises `ValueError`
      and changes nothing. */
    method Set(key: string, value: PyValue) returns (err: Option<string>)
      modifies this
      ensures key in old(fields) && TypeName(value) == old(fields)[key].stype ==>
                err.None? && fields == old(fields)[key := Setting(old(fields)[key].stype, value)]
      ensures !(key in old(fields) && TypeName(value) == old(fields)[key].stype) ==>
                err == Some(SetErrorMessage) && fields == old(fields)
    {
      if key in fields && TypeName(value) == fields[key].stype {
        fields := fields[key := Setting(fields[key].stype, value)];
        err := None;
      } else {
        err := Some(SetErrorMessage);
      }
    }

    /** `load()`: a missing file leaves every setting as it is; otherwise
      each known setting whose saved entry has a `value` takes it, with no
      type check, and every other key of the file is ignored. */
    method Load(saved: Option<SettingsFile>)
      modifies this
      ensures fields.Keys == old(fields).Keys
      ensures saved.None? ==> fields == old(fields)
      ensures forall k :: k in fields ==> fields[k].stype == old(fields)[k].stype
      ensures saved.Some? ==> forall k :: k in fields ==>
                fields[k].value == LoadedValue(k, old(fields)[k].value, saved.value)
    {
      if saved.None? {
        return;
      }
      var raw := saved.value;
      var todo := fields.Keys;
      while todo != {}
        invariant todo <= fields.Keys == old(fields).Keys
        invariant forall k :: k in fields ==> fields[k].stype == old(fields)[k].stype
        invariant forall k :: k in fields ==>
                    fields[k].value == if k in todo then old(fields)[k].value
                                       else LoadedValue(k, old(fields)[k].value, raw)
        decreases todo
      {
        var key :| key in todo;
        if key in raw && "value" in raw[key] {
          fields := fields[key := fields[key].(value := raw[key]["value"])];
        }
        todo := todo - {key};
      }
    }
  }

  // ---------------------------------------------------------------------
  // SQLModel.save_record: which queries run
  // ---------------------------------------------------------------------

  datatype Query = LabCheckUpdate | LabCheckInsert | PlotCheckUpdate | PlotCheckInsert

  /** The record a save sends to the database: with a row key it also
      carries the key's parts, under which the update finds the old row. */
  function KeyedRecord(record: Record, rowkey: Option<RowKey>): Record {
    match rowkey
    case None => record
    case Some(k) =>
      record["key_date" := k.date]["key_time" := k.time]["key_lab" := k.lab]["key_plot" := k.plot]
  }

  /** `SQLModel.save_record`: the record as sent (updated in place with the
      key parts) and the lab-check query followed by the plot-check query.
      `labChecks` holds the (date, time, lab) triples that already have a lab
      check; a record lacking one of those fields raises `KeyError`. */
  function SqlSave(record: Record, rowkey: Option<RowKey>, labChecks: set<(PyValue, PyValue, PyValue)>)
    : (r: Result<(Record, seq<Query>), ModelError>)
    ensures r.Ok? <==> "Date" in record && "Time" in record && "Lab" in record
    ensures r.Ok? ==> |r.value.1| == 2
    ensures r.Ok? ==> (r.value.1[1] == PlotCheckUpdate <==> rowkey.Some?)
    ensures r.Ok? ==> (r.value.1[1] == PlotCheckInsert <==> rowkey.None?)
    ensures r.Ok? ==> (r.value.1[0] == LabCheckUpdate <==> (record["Date"], record["Time"], record["Lab"]) in labChecks)
    ensures r.Ok? ==> (r.value.1[0] == LabCheckInsert <==> (record["Date"], record["Time"], record["Lab"]) !in labChecks)
    ensures r.Ok? && rowkey.Some? ==>
              && "key_date" in r.value.0 && r.value.0["key_date"] == rowkey.value.date
              && "key_time" in r.value.0 && r.value.0["key_time"] == rowkey.value.time
              && "key_lab" in r.value.0 && r.value.0["key_lab"] == rowkey.value.lab
              && "key_plot" in r.value.0 && r.value.0["key_plot"] == rowkey.value.plot
    ensures r.Ok? ==> forall k :: k in record && k !in {"key_date", "key_time", "key_lab", "key_plot"} ==>
              k in r.value.0 && r.value.0[k] == record[k]
  {
    var sent := KeyedRecord(record, rowkey);
    if !("Date" in sent && "Time" in sent && "Lab" in sent) then
      Err(KeyError(if "Date" !in sent then "Date" else if "Time" !in sent then "Time" else "Lab"))
    else
      var lc := if (sent["Date"], sent["Time"], sent["Lab"]) in labChecks then LabCheckUpdate else LabCheckInsert;
      var pc := if rowkey.Some? then PlotCheckUpdate else PlotCheckInsert;
      Ok((sent, [lc, pc]))
  }

  // ---------------------------------------------------------------------
  // CorporateRestModel.check_file
  // ---------------------------------------------------------------------

  /** `check_file`: status 200 means the file exists, 404 that it does not;
      a client or server error (400-599) raises with the server's message;
      any other status falls through and returns `None`. */
  function CheckFile(status: int, message: string): (r: Result<Option<bool>, string>)
    ensures r == Ok(Some(true)) <==> status == 200
    ensures r == Ok(Some(false)) <==> status == 404
    ensures r.Err? <==> status != 404 && 400 <= status < 600
    ensures r.Err? ==> r.error == message
    ensures r == Ok(None) <==> status != 200 && status != 404 && !(400 <= status < 600)
  {
    if status == 200 then Ok(Some(true))
    else if status == 404 then Ok(Some(false))
    else if 400 <= status < 600 then Err(message)
    else Ok(None)
  }
}
