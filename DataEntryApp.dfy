/** The Chapter 4 version of the data entry form and its application: a
    form of seventeen Tk variables, a `get` that blanks the environment
    readings when the equipment is faulty and turns an unreadable field into
    a `ValueError`, a `reset`, and a save handler that appends one row to the
    day's CSV file. The files on disk are a map from file name to contents;
    today's date is a parameter. */
module DataEntryApp {
  import opened Common
  import opened TkVars
  import opened Widgets
  import opened Models

  /** The form's variables, in the order the form declares them. */
  const FieldOrder: seq<string> := [
    "Date", "Time", "Technician", "Lab", "Plot", "Seed Sample",
    "Humidity", "Light", "Temperature", "Equipment Fault",
    "Plants", "Blossoms", "Fruit", "Min Height", "Max Height", "Med Height", "Notes"
  ]

  /** The class of each variable. */
  const FieldTypes: map<string, VarType> := map[
    "Date" := StringVar, "Time" := StringVar, "Technician" := StringVar, "Lab" := StringVar,
    "Plot" := IntVar, "Seed Sample" := StringVar,
    "Humidity" := DoubleVar, "Light" := DoubleVar, "Temperature" := DoubleVar,
    "Equipment Fault" := BooleanVar,
    "Plants" := IntVar, "Blossoms" := IntVar, "Fruit" := IntVar,
    "Min Height" := DoubleVar, "Max Height" := DoubleVar, "Med Height" := DoubleVar,
    "Notes" := StringVar
  ]

  const FaultField := "Equipment Fault"

  /** The readings a faulty piece of equipment cannot be trusted for. */
  const BlankedOnFault: seq<string> := ["Light", "Humidity", "Temperature"]

  function FieldMessage(key: string): string {
    "Error in field: " + key + ".  Data was not saved!"
  }

  /** One field as `get` reads it: blank when the equipment is faulty and
      the field is an environment reading; a Tcl error becomes the
      `ValueError` naming the field, a `ValueError` passes through. */
  function ReadVar(fault: bool, key: string, v: TkVar): Result<PyValue, string> {
    if fault && key in BlankedOnFault then Ok(Str(""))
    else match Get(v)
      case Ok(x) => Ok(x)
      case Err(e) => if e.TclError? then Err(FieldMessage(key)) else Err(e.message)
  }

  /** A blanked reading is '' whatever its variable holds; any other field
      reads as its variable does, a string field never fails, a number field
      fails with the message naming it and a BooleanVar with the
      `getboolean` message. */
  lemma ReadVarMeaning(fault: bool, key: string, v: TkVar)
    ensures fault && key in BlankedOnFault ==> ReadVar(fault, key, v) == Ok(Str(""))
    ensures ReadVar(fault, key, v).Ok? && !(fault && key in BlankedOnFault) ==> Get(v) == Ok(ReadVar(fault, key, v).value)
    ensures v.vtype == StringVar ==> ReadVar(fault, key, v).Ok?
    ensures ReadVar(fault, key, v).Err? && (v.vtype == IntVar || v.vtype == DoubleVar) ==>
              ReadVar(fault, key, v) == Err(FieldMessage(key))
    ensures ReadVar(fault, key, v).Err? && v.vtype == BooleanVar ==> ReadVar(fault, key, v) == Err(BadBooleanLiteral)
  {
  }

  /** The fields read in order with `read`: the data of all of them, or
      the error of the first that fails. */
  function ReadAll(keys: seq<string>, read: string --> Result<PyValue, string>): (r: Result<map<string, PyValue>, string>)
    requires forall k :: k in keys ==> read.requires(k)
    ensures r.Ok? ==> forall k :: k in r.value <==> k in keys
    ensures r.Ok? ==> forall k :: k in keys ==> Ok(r.value[k]) == read(k)
    ensures r.Err? ==> exists i :: 0 <= i < |keys| && read(keys[i]) == Err(r.error)
                                   && forall j :: 0 <= j < i ==> read(keys[j]).Ok?
    decreases |keys|
  {
    if keys == [] then Ok(map[])
    else
      var last := keys[|keys| - 1];
      match ReadAll(keys[..|keys| - 1], read)
      case Err(m) => Err(m)
      case Ok(data) =>
        match read(last)
        case Err(m) => Err(m)
        case Ok(v) => Ok(data[last := v])
  }

  /** How `get` reads each field of `vars`. */
  function Reader(vars: map<string, TkVar>, fault: bool): string --> Result<PyValue, string> {
    k requires k in vars => ReadVar(fault, k, vars[k])
  }

  /** `get`: the equipment-fault flag first, then every field in order. */
  function FormGet(keys: seq<string>, vars: map<string, TkVar>): (r: Result<map<string, PyValue>, string>)
    requires FaultField in vars && forall k :: k in keys ==> k in vars
  {
    match Get(vars[FaultField])
    case Err(e) => Err(e.message)
    case Ok(fault) => ReadAll(keys, Reader(vars, Truthy(fault)))
  }

  /** A failure among the first `n` fields is the failure of all of them. */
  lemma {:induction false} ReadAllPrefixFails(keys: seq<string>, read: string --> Result<PyValue, string>, n: nat)
    requires n <= |keys| && forall k :: k in keys ==> read.requires(k)
    requires ReadAll(keys[..n], read).Err?
    ensures ReadAll(keys, read) == ReadAll(keys[..n], read)
    decreases |keys| - n
  {
    if n < |keys| {
      var init := keys[..|keys| - 1];
      assert init[..n] == keys[..n];
      assert forall k :: k in init ==> k in keys;
      ReadAllPrefixFails(init, read, n);
      assert ReadAll(init, read).Err?;
    } else {
      assert keys[..n] == keys;
    }
  }

  /** Reading one more field: its error, or its value added to the data. */
  lemma ReadAllStep(keys: seq<string>, read: string --> Result<PyValue, string>, i: nat)
    requires i < |keys| && forall k :: k in keys ==> read.requires(k)
    requires ReadAll(keys[..i], read).Ok?
    ensures read(keys[i]).Err? ==> ReadAll(keys[..i + 1], read) == Err(read(keys[i]).error)
    ensures read(keys[i]).Ok? ==>
              ReadAll(keys[..i + 1], read) == Ok(ReadAll(keys[..i], read).value[keys[i] := read(keys[i]).value])
  {
    assert keys[..i + 1][..i] == keys[..i];
  }

  /** Two readers that agree on every field give the same result. */
  lemma {:induction false} ReadAllAgree(keys: seq<string>, a: string --> Result<PyValue, string>,
                                        b: string --> Result<PyValue, string>)
    requires forall k :: k in keys ==> a.requires(k) && b.requires(k) && a(k) == b(k)
    ensures ReadAll(keys, a) == ReadAll(keys, b)
    decreases |keys|
  {
    if keys != [] {
      ReadAllAgree(keys[..|keys| - 1], a, b);
    }
  }

  /** With the equipment faulty, what the blanked readings hold makes no
      difference to `get`. */
  lemma FaultIgnoresReadings(keys: seq<string>, a: map<string, TkVar>, b: map<string, TkVar>)
    requires FaultField in a && FaultField in b && a[FaultField] == b[FaultField]
    requires Get(a[FaultField]) == Ok(Bool(true))
    requires forall k :: k in keys ==> k in a && k in b
    requires forall k :: k in keys && k !in BlankedOnFault ==> a[k] == b[k]
    ensures FormGet(keys, a) == FormGet(keys, b)
  {
    forall k | k in keys ensures Reader(a, true)(k) == Reader(b, true)(k) {
      ReadVarMeaning(true, k, a[k]);
      ReadVarMeaning(true, k, b[k]);
    }
    ReadAllAgree(keys, Reader(a, true), Reader(b, true));
  }

  /** With the equipment faulty, `get` reports the blanked readings as ''. */
  lemma FaultBlanks(keys: seq<string>, vars: map<string, TkVar>)
    requires FaultField in vars && forall k :: k in keys ==> k in vars
    requires Get(vars[FaultField]) == Ok(Bool(true))
    requires FormGet(keys, vars).Ok?
    ensures forall k :: k in keys && k in BlankedOnFault ==> FormGet(keys, vars).value[k] == Str("")
  {
    forall k | k in keys && k in BlankedOnFault ensures FormGet(keys, vars).value[k] == Str("") {
      ReadVarMeaning(true, k, vars[k]);
    }
  }

  /** Why `get` fails: the flag or another BooleanVar does not read, or a
      number field does not, and the message names that field. */
  lemma FormGetErrors(keys: seq<string>, vars: map<string, TkVar>)
    requires FaultField in vars && vars[FaultField].vtype == BooleanVar && forall k :: k in keys ==> k in vars
    requires FormGet(keys, vars).Err?
    ensures || FormGet(keys, vars).error == BadBooleanLiteral
            || exists i :: 0 <= i < |keys| && (vars[keys[i]].vtype == IntVar || vars[keys[i]].vtype == DoubleVar)
                           && FormGet(keys, vars).error == FieldMessage(keys[i])
  {
    var flag := Get(vars[FaultField]);
    if flag.Ok? {
      var read := Reader(vars, Truthy(flag.value));
      var i :| 0 <= i < |keys| && read(keys[i]) == Err(FormGet(keys, vars).error);
      ReadVarMeaning(Truthy(flag.value), keys[i], vars[keys[i]]);
    }
  }

  /** Every variable in its cleared state. */
  function ClearedVars(vars: map<string, TkVar>): (r: map<string, TkVar>)
    ensures r.Keys == vars.Keys
    ensures forall k :: k in r ==> r[k].vtype == vars[k].vtype
                                   && r[k].raw == if vars[k].vtype == BooleanVar then "0" else ""
  {
    map k | k in vars :: Cleared(vars[k])
  }

  /** The variables of a new form, after its constructor's `reset`. */
  function InitialVars(): (r: map<string, TkVar>)
    ensures r.Keys == FieldTypes.Keys
    ensures forall k :: k in r ==> r[k] == TkVar(FieldTypes[k], if FieldTypes[k] == BooleanVar then "0" else "")
  {
    ClearedVars(map k | k in FieldTypes :: TkVar(FieldTypes[k], ""))
  }

  lemma FieldOrderCoversTypes()
    ensures forall k :: k in FieldOrder <==> k in FieldTypes
  {
  }

  // ---------------------------------------------------------------------
  // The form
  // ---------------------------------------------------------------------

  class DataRecordForm {
    const keys: seq<string>
    var vars: map<string, TkVar>

    ghost predicate Valid()
      reads this
    {
      && (forall k :: k in vars <==> k in keys)
      && FaultField in vars && vars[FaultField].vtype == BooleanVar
    }

    /** The form with its seventeen variables, reset. */
    constructor ()
      ensures Valid() && keys == FieldOrder && vars == InitialVars()
    {
      keys := FieldOrder;
      vars := InitialVars();
      FieldOrderCoversTypes();
    }

    /** `get`, one field at a time. */
    method Get() returns (r: Result<map<string, PyValue>, string>)
      requires Valid()
      ensures r == FormGet(keys, vars)
    {
      var fault := TkVars.Get(vars[FaultField]);
      if fault.Err? {
        return Err(fault.error.message);
      }
      var faulty := Truthy(fault.value);
      ghost var read := Reader(vars, faulty);
      var data := map[];
      var i := 0;
      while i < |keys|
        invariant 0 <= i <= |keys|
        invariant ReadAll(keys[..i], read) == Ok(data)
      {
        var key := keys[i];
        match ReadVar(faulty, key, vars[key]) {
          case Err(m) =>
            ReadAllStep(keys, read, i);
            ReadAllPrefixFails(keys, read, i + 1);
            return Err(m);
          case Ok(v) =>
            ReadAllStep(keys, read, i);
            data := data[key := v];
        }
        i := i + 1;
      }
      assert keys[..i] == keys;
      r := Ok(data);
    }

    /** `reset`: every BooleanVar to False, every other variable to ''. */
    method Reset()
      requires Valid()
      modifies this
      ensures Valid() && vars == ClearedVars(old(vars))
    {
      var done: nat, err: Option<()>;
      var before := vars;
      vars, done, err := StoreEach(keys, vars, vars, (k, v: TkVar) => Ok(Cleared(v)));
      assert keys[..done] == keys;
      AllCleared(keys, before, vars);
    }
  }

  /** Variables for exactly `keys`, each replaced by its cleared value,
      are the cleared variables. */
  lemma AllCleared(keys: seq<string>, before: map<string, TkVar>, after: map<string, TkVar>)
    requires forall k :: k in before <==> k in keys
    requires forall k :: k in after <==> k in before || k in keys
    requires forall j :: 0 <= j < |keys| ==> after[keys[j]] == Cleared(before[keys[j]])
    ensures after == ClearedVars(before)
  {
    forall k | k in after ensures after[k] == Cleared(before[k]) {
      var j :| 0 <= j < |keys| && keys[j] == k;
    }
  }

  // ---------------------------------------------------------------------
  // The application
  // ---------------------------------------------------------------------

  const SavedSuffix := " records saved this session"

  /** The day's file name. */
  function FileName(today: Date): string
    requires ValidDate(today)
  {
    "abq_data_record_" + IsoText(today) + ".csv"
  }

  /** `DictWriter.writerow` with the data's own keys as field names. */
  function DataRow(data: map<string, PyValue>): Row {
    map k | k in data :: CellText(data[k])
  }

  /** The file after appending `row`: a new file gets `header` first, an
      existing one keeps its own. */
  function Appended(file: Option<CsvFile>, header: seq<string>, row: Row): CsvFile {
    match file
    case None => CsvFile(header, [row])
    case Some(f) => CsvFile(f.header, f.rows + [row])
  }

  /** The files after appending `row` to the file `name`. */
  function WithRow(disk: map<string, CsvFile>, name: string, header: seq<string>, row: Row): map<string, CsvFile> {
    disk[name := Appended(if name in disk then Some(disk[name]) else None, header, row)]
  }

  class Application {
    const form: DataRecordForm
    var recordsSaved: nat
    var status: string
    var disk: map<string, CsvFile>

    ghost predicate Valid()
      reads this, form
    {
      form.Valid()
    }

    constructor (disk: map<string, CsvFile>)
      ensures Valid() && fresh(form) && form.keys == FieldOrder && form.vars == InitialVars()
      ensures recordsSaved == 0 && status == "" && this.disk == disk
    {
      form := new DataRecordForm();
      recordsSaved := 0;
      status := "";
      this.disk := disk;
    }

    /** Appending one row to the file `name` and counting it. */
    method Store(name: string, header: seq<string>, row: Row)
      modifies this
      ensures disk == WithRow(old(disk), name, header, row)
      ensures recordsSaved == old(recordsSaved) + 1 && status == NatText(recordsSaved) + SavedSuffix
    {
      if name !in disk {
        disk := disk[name := CsvFile(header, [row])];
      } else {
        disk := disk[name := CsvFile(disk[name].header, disk[name].rows + [row])];
      }
      recordsSaved := recordsSaved + 1;
      status := NatText(recordsSaved) + SavedSuffix;
    }

    /** `_on_save`. A form that does not read leaves its message in the
        status line and changes nothing else; otherwise one row is appended
        to the day's file (with a header only when the file is new), the
        counter goes up by one and the form is reset. */
    method OnSave(today: Date) returns (got: Result<map<string, PyValue>, string>)
      requires Valid() && ValidDate(today)
      modifies this, form
      ensures Valid() && got == FormGet(form.keys, old(form.vars))
      ensures got.Err? ==>
                && status == got.error
                && disk == old(disk) && recordsSaved == old(recordsSaved) && form.vars == old(form.vars)
      ensures got.Ok? ==>
                && disk == WithRow(old(disk), FileName(today), form.keys, DataRow(got.value))
                && recordsSaved == old(recordsSaved) + 1
                && status == NatText(recordsSaved) + SavedSuffix
                && form.vars == ClearedVars(old(form.vars))
    {
      var name := FileName(today);
      got := form.Get();
      if got.Err? {
        status := got.error;
        return;
      }
      Keep(name, got.value);
    }

    /** The lines of `_on_save` after a successful `get`: the row is
        appended and counted, and the form is reset. */
    method Keep(name: string, data: map<string, PyValue>)
      requires Valid()
      modifies this, form
      ensures Valid() && disk == WithRow(old(disk), name, form.keys, DataRow(data))
      ensures recordsSaved == old(recordsSaved) + 1 && status == NatText(recordsSaved) + SavedSuffix
      ensures form.vars == ClearedVars(old(form.vars))
    {
      Store(name, form.keys, DataRow(data));
      form.Reset();
    }
  }
}
