/** The controller of the ABQ application: the save gate and the
    inserted/updated row bookkeeping, the login retry loop, the CSV extract
    built for upload, the overwrite gate of the REST upload and the drain of
    the uploader's message queue. Dialog answers, the database's state and
    the server's replies are parameters. */
module Application {
  import opened Common
  import opened TkVars
  import opened Widgets
  import opened Models
  import opened Views

  // ---------------------------------------------------------------------
  // Saving
  // ---------------------------------------------------------------------

  const CannotSavePrefix := "Cannot save, error in fields: "
  const SavedSuffix := " records saved this session"

  /** The field names of an error list, in order. */
  function ErrorFields(errors: seq<(string, string)>): (r: seq<string>)
    ensures |r| == |errors|
    ensures forall i :: 0 <= i < |r| ==> r[i] == errors[i].0
  {
    seq(|errors|, i requires 0 <= i < |errors| => errors[i].0)
  }

  /** Focus-out validation changes only the error texts. */
  lemma FocusedKeepsVariables(inputs: map<string, Input>)
    ensures SameWidgets(inputs, Focused(inputs))
    ensures forall k :: k in inputs ==> Focused(inputs)[k].variable == inputs[k].variable
    ensures SheetShape(inputs) ==> SheetShape(Focused(inputs))
  {
    forall k | k in inputs ensures Focused(inputs)[k] == inputs[k].(error := Focused(inputs)[k].error) {
      AfterFocusoutError(inputs[k]);
    }
  }

  /** The first field that does not read is the same before focus-out
      validation as after it. */
  lemma FocusedFirstFailure(keys: seq<string>, original: map<string, Input>, e: VarError)
    requires forall k :: k in keys ==> k in original
    requires exists i :: 0 <= i < |keys| && Err(e) == ReadField(Focused(original)[keys[i]].variable)
                         && forall j :: 0 <= j < i ==> ReadField(Focused(original)[keys[j]].variable).Ok?
    ensures exists i :: 0 <= i < |keys| && Err(e) == ReadField(original[keys[i]].variable)
                        && forall j :: 0 <= j < i ==> ReadField(original[keys[j]].variable).Ok?
  {
    var i :| 0 <= i < |keys| && Err(e) == ReadField(Focused(original)[keys[i]].variable)
             && forall j :: 0 <= j < i ==> ReadField(Focused(original)[keys[j]].variable).Ok?;
    forall j | 0 <= j <= i ensures original[keys[j]].variable == Focused(original)[keys[j]].variable {
      FocusedVariable(original, keys[j]);
    }
  }

  /** The key of a newly inserted row: its Date, Time, Lab and Plot. */
  function InsertedKey(data: map<string, PyValue>): RowKey
    requires "Date" in data && "Time" in data && "Lab" in data && "Plot" in data
  {
    RowKey(data["Date"], data["Time"], data["Lab"], data["Plot"])
  }

  datatype SaveOutcome =
    | FieldErrors(fields: seq<string>)          // `_on_save` returned False
    | ReadFailed(e: VarError)                   // `get` raised
    | Saved(data: map<string, PyValue>, resetRaised: Option<FormError>)

  /** The controller's bookkeeping: the row lists, the counter, the status
      line and what was sent to the database. */
  datatype Books = Books(insertedRows: seq<RowKey>, updatedRows: seq<RowKey>, recordsSaved: nat,
                         status: string, sent: seq<(Record, seq<Query>)>)

  /** One successful save of `data` under `rowkey`: the record and its
      queries are sent, the key goes to exactly one list (the updated rows
      for an existing record, the inserted rows for a new one), the counter
      goes up by one and the status line reports it. */
  predicate Stored(before: Books, after: Books, data: map<string, PyValue>, rowkey: Option<RowKey>,
                   labChecks: set<(PyValue, PyValue, PyValue)>)
  {
    && "Date" in data && "Time" in data && "Lab" in data && "Plot" in data
    && SqlSave(data, rowkey, labChecks).Ok?
    && after.sent == before.sent + [SqlSave(data, rowkey, labChecks).value]
    && after.recordsSaved == before.recordsSaved + 1
    && after.status == NatText(after.recordsSaved) + SavedSuffix
    && (rowkey.Some? ==> after.updatedRows == before.updatedRows + [rowkey.value]
                         && after.insertedRows == before.insertedRows)
    && (rowkey.None? ==> after.insertedRows == before.insertedRows + [InsertedKey(data)]
                         && after.updatedRows == before.updatedRows)
  }

  /** The errors `get_errors` returned, read back: non-empty exactly when
      some field reports an error, and naming exactly those fields. */
  lemma ErrorFieldsMeaning(errors: seq<(string, string)>, before: map<string, Input>, after: map<string, Input>,
                           fields: seq<string>)
    requires after == Focused(before)
    requires forall p :: p in errors <==> p.0 in after && after[p.0].error != "" && p.1 == after[p.0].error
    requires fields == ErrorFields(errors)
    ensures |errors| > 0 <==> exists k :: k in before && AfterFocusout(before[k]).error != ""
    ensures forall f :: f in fields <==> f in before && AfterFocusout(before[f]).error != ""
  {
    forall f ensures f in fields <==> f in before && AfterFocusout(before[f]).error != "" {
      if f in before && AfterFocusout(before[f]).error != "" {
        assert (f, after[f].error) in errors;
      }
      if f in fields {
        var i :| 0 <= i < |fields| && fields[i] == f;
        assert errors[i] in errors;
      }
    }
    if |errors| > 0 {
      assert errors[0] in errors;
    }
  }

  class Application {
    const form: DataRecordForm
    var insertedRows: seq<RowKey>
    var updatedRows: seq<RowKey>
    var recordsSaved: nat
    var status: string
    /** What `save_record` sent to the database: the record and its queries. */
    var sent: seq<(Record, seq<Query>)>

    ghost predicate Valid()
      reads this, form
    {
      form.Valid()
    }

    constructor (form: DataRecordForm)
      requires form.Valid()
      ensures Valid() && this.form == form
      ensures insertedRows == [] && updatedRows == [] && recordsSaved == 0 && status == "" && sent == []
    {
      this.form := form;
      insertedRows := [];
      updatedRows := [];
      recordsSaved := 0;
      status := "";
      sent := [];
    }

    /** `_on_save`. A form with errors is not saved and nothing but the
        status line and the error texts changes; otherwise the record goes
        to the database, its key to exactly one of the row lists, the
        counter goes up by one and the form is reset. */
    method OnSave(labChecks: set<(PyValue, PyValue, PyValue)>, autofillDate: bool, autofillSheet: bool, today: Date)
      returns (r: SaveOutcome)
      requires Valid() && ValidDate(today)
      modifies this, form
      ensures Valid() && form.currentRecord == old(form.currentRecord)
      ensures r.FieldErrors? <==> exists k :: k in old(form.inputs) && AfterFocusout(old(form.inputs)[k]).error != ""
      ensures r.FieldErrors? ==>
                && r.fields == ErrorFields(ErrorsIn(form.keys, Focused(old(form.inputs))))
                && (forall f :: f in r.fields <==> f in old(form.inputs) && AfterFocusout(old(form.inputs)[f]).error != "")
                && status == CannotSavePrefix + Join(", ", r.fields)
                && form.inputs == Focused(old(form.inputs))
      ensures r.ReadFailed? ==>
                && form.inputs == Focused(old(form.inputs)) && status == old(status)
                && (exists i :: 0 <= i < |form.keys| && Err(r.e) == ReadField(old(form.inputs)[form.keys[i]].variable)
                                 && forall j :: 0 <= j < i ==> ReadField(old(form.inputs)[form.keys[j]].variable).Ok?)
      ensures !r.Saved? ==>
                insertedRows == old(insertedRows) && updatedRows == old(updatedRows)
                && recordsSaved == old(recordsSaved) && sent == old(sent)
      ensures r.Saved? ==>
                && r.data.Keys == old(form.inputs).Keys
                && (forall k :: k in r.data ==> Ok(r.data[k]) == ReadField(old(form.inputs)[k].variable))
                && (form.inputs, r.resetRaised) == ResetForm(Focused(old(form.inputs)), form.links, autofillDate, autofillSheet, today)
      ensures r.Saved? ==> Stored(old(Snapshot()), Snapshot(), r.data, old(form.currentRecord), labChecks)
    {
      var before := form.inputs;
      var fields := ReportErrors();
      if |fields| > 0 {
        return FieldErrors(fields);
      }
      r := SaveChecked(before, labChecks, autofillDate, autofillSheet, today);
    }

    /** The gate of `_on_save`: `get_errors`, and the status line naming
        the fields in error when there are any. */
    method ReportErrors() returns (fields: seq<string>)
      requires Valid()
      modifies this, form
      ensures Valid() && form.currentRecord == old(form.currentRecord)
      ensures form.inputs == Focused(old(form.inputs))
      ensures fields == ErrorFields(ErrorsIn(form.keys, form.inputs))
      ensures |fields| > 0 <==> exists k :: k in old(form.inputs) && AfterFocusout(old(form.inputs)[k]).error != ""
      ensures forall f :: f in fields <==> f in old(form.inputs) && AfterFocusout(old(form.inputs)[f]).error != ""
      ensures Snapshot() == old(Snapshot()).(status := if |fields| > 0 then CannotSavePrefix + Join(", ", fields)
                                                       else old(status))
    {
      var before := form.inputs;
      var errors := form.GetErrors();
      fields := ErrorFields(errors);
      ErrorFieldsMeaning(errors, before, form.inputs, fields);
      if |errors| > 0 {
        status := CannotSavePrefix + Join(", ", fields);
      }
    }

    /** The bookkeeping of one save (the lines after `get`, up to the reset). */
    method Book(record: map<string, PyValue>, rowkey: Option<RowKey>, labChecks: set<(PyValue, PyValue, PyValue)>)
      requires "Date" in record && "Time" in record && "Lab" in record && "Plot" in record
      modifies this
      ensures Stored(old(Snapshot()), Snapshot(), record, rowkey, labChecks)
    {
      var save := SqlSave(record, rowkey, labChecks);
      sent := sent + [save.value];
      if rowkey.Some? {
        updatedRows := updatedRows + [rowkey.value];
      } else {
        insertedRows := insertedRows + [InsertedKey(record)];
      }
      recordsSaved := recordsSaved + 1;
      status := NatText(recordsSaved) + SavedSuffix;
    }

    /** The controller's bookkeeping, as a value. */
    function Snapshot(): Books
      reads this
    {
      Books(insertedRows, updatedRows, recordsSaved, status, sent)
    }

    /** `_on_save` once the form reported no errors: read the form, save,
        record the row and reset the form. */
    method SaveChecked(ghost original: map<string, Input>, labChecks: set<(PyValue, PyValue, PyValue)>,
                       autofillDate: bool, autofillSheet: bool, today: Date)
      returns (r: SaveOutcome)
      requires Valid() && ValidDate(today) && form.inputs == Focused(original)
      modifies this, form
      ensures Valid() && form.currentRecord == old(form.currentRecord)
      ensures !r.FieldErrors?
      ensures r.ReadFailed? ==>
                && form.inputs == old(form.inputs) && Snapshot() == old(Snapshot())
                && (exists i :: 0 <= i < |form.keys| && Err(r.e) == ReadField(original[form.keys[i]].variable)
                                 && forall j :: 0 <= j < i ==> ReadField(original[form.keys[j]].variable).Ok?)
      ensures r.Saved? ==>
                && r.data.Keys == original.Keys
                && (forall k :: k in r.data ==> Ok(r.data[k]) == ReadField(original[k].variable))
                && (form.inputs, r.resetRaised) == ResetForm(Focused(original), form.links, autofillDate, autofillSheet, today)
                && Stored(old(Snapshot()), Snapshot(), r.data, old(form.currentRecord), labChecks)
    {
      var data := form.Get();
      if data.Err? {
        FocusedFirstFailure(form.keys, original, data.error);
        return ReadFailed(data.error);
      }
      var record := data.value;
      forall k | k in original ensures Focused(original)[k].variable == original[k].variable {
        FocusedVariable(original, k);
      }
      var raised := SaveRead(original, record, labChecks, autofillDate, autofillSheet, today);
      r := Saved(record, raised);
    }

    /** The lines of `_on_save` after a successful `get`: the record is
        saved and booked, and the form is reset. */
    method SaveRead(ghost original: map<string, Input>, record: map<string, PyValue>,
                    labChecks: set<(PyValue, PyValue, PyValue)>, autofillDate: bool, autofillSheet: bool, today: Date)
      returns (raised: Option<FormError>)
      requires Valid() && ValidDate(today) && form.inputs == Focused(original)
      requires "Date" in record && "Time" in record && "Lab" in record && "Plot" in record
      modifies this, form
      ensures Valid() && form.currentRecord == old(form.currentRecord)
      ensures (form.inputs, raised) == ResetForm(Focused(original), form.links, autofillDate, autofillSheet, today)
      ensures Stored(old(Snapshot()), Snapshot(), record, old(form.currentRecord), labChecks)
    {
      Book(record, form.currentRecord, labChecks);
      raised := form.Reset(autofillDate, autofillSheet, today);
    }

    /** `_check_queue` on the messages waiting in the queue, oldest first:
        returns the messages it left in the queue and whether it rescheduled
        itself. */
    method CheckQueue(queue: seq<Message>) returns (rest: seq<Message>, reschedule: bool)
      modifies this
      ensures reschedule <==> FirstTerminal(queue).None?
      ensures reschedule ==> rest == []
                             && status == if queue == [] then old(status) else ProgressLine(queue[|queue| - 1])
      ensures !reschedule ==> var t := FirstTerminal(queue).value;
                              rest == queue[t + 1..] && status == queue[t].subject
      ensures insertedRows == old(insertedRows) && updatedRows == old(updatedRows)
      ensures recordsSaved == old(recordsSaved) && sent == old(sent)
    {
      var i := 0;
      while i < |queue|
        invariant 0 <= i <= |queue|
        invariant forall j :: 0 <= j < i ==> !Terminal(queue[j])
        invariant status == if i == 0 then old(status) else ProgressLine(queue[i - 1])
        invariant insertedRows == old(insertedRows) && updatedRows == old(updatedRows)
        invariant recordsSaved == old(recordsSaved) && sent == old(sent)
      {
        var item := queue[i];
        i := i + 1;
        if Terminal(item) {
          status := item.subject;
          FirstTerminalAt(queue, i - 1);
          return queue[i..], false;
        }
        status := ProgressLine(item);
      }
      rest, reschedule := [], true;
    }
  }

  // ---------------------------------------------------------------------
  // Logging in
  // ---------------------------------------------------------------------

  /** `_simple_login`: the one hard-coded user. */
  function SimpleLogin(username: string, password: string): (r: bool)
    ensures r <==> username == "abq" && password == "Flowers"
    ensures r ==> |username| == 3 && |password| == 7
  {
    username == "abq" && password == "Flowers"
  }

  const LoginFailed := "Login Failed"

  /** How the login loop ended: the attempt that logged in, the dialog that
      was cancelled, or every given dialog answered with a failed login. */
  datatype LoginOutcome = LoggedIn(attempt: nat) | Cancelled(attempt: nat) | StillAsking

  /** `_show_login`. Each dialog's answer is `None` when the user cancelled,
      and `accepts` is the login backend. Returns the outcome and the error
      text each dialog was shown. */
  method ShowLogin(dialogs: seq<Option<(string, string)>>, accepts: ((string, string)) -> bool)
    returns (outcome: LoginOutcome, shown: seq<string>)
    ensures outcome.LoggedIn? ==>
              && outcome.attempt < |dialogs| && dialogs[outcome.attempt].Some?
              && accepts(dialogs[outcome.attempt].value)
    ensures outcome.Cancelled? ==> outcome.attempt < |dialogs| && dialogs[outcome.attempt].None?
    ensures var tried := if outcome.StillAsking? then |dialogs| else outcome.attempt;
            && tried <= |dialogs|
            && (forall j :: 0 <= j < tried ==> dialogs[j].Some? && !accepts(dialogs[j].value))
            && |shown| == (if outcome.StillAsking? then |dialogs| else tried + 1)
    ensures forall j :: 0 <= j < |shown| ==> shown[j] == if j == 0 then "" else LoginFailed
  {
    var error := "";
    var i := 0;
    shown := [];
    while i < |dialogs|
      invariant 0 <= i <= |dialogs| && |shown| == i
      invariant forall j :: 0 <= j < i ==> dialogs[j].Some? && !accepts(dialogs[j].value)
      invariant forall j :: 0 <= j < i ==> shown[j] == if j == 0 then "" else LoginFailed
      invariant error == if i == 0 then "" else LoginFailed
    {
      shown := shown + [error];
      match dialogs[i] {
        case None => return Cancelled(i), shown;
        case Some(credentials) =>
          if accepts(credentials) {
            return LoggedIn(i), shown;
          }
      }
      error := LoginFailed;
      i := i + 1;
    }
    outcome := StillAsking;
  }

  // ---------------------------------------------------------------------
  // The CSV extract
  // ---------------------------------------------------------------------

  datatype ExtractError = NoRecords | WriteFailed(e: ModelError)

  const NoRecordsMessage := "No records were found to build a CSV file."

  function HeaderOf(file: Option<CsvFile>): seq<string> {
    if file.None? then FieldNames else file.value.header
  }

  function RowsOf(file: Option<CsvFile>): seq<Row> {
    if file.None? then [] else file.value.rows
  }

  /** `_create_csv_extract`: refuses an empty database; otherwise saves
      every record, in order, to a new CSV model over the file `existing`.
      Returns the file as it is left and the error that ended the extract:
      the header kept (or written for a new file), the rows already there,
      and the rows of the records up to the first that cannot be written. */
  method CreateCsvExtract(records: seq<Record>, existing: Option<CsvFile>)
    returns (file: Option<CsvFile>, err: Option<ExtractError>)
    ensures records == [] ==> file == existing && err == Some(NoRecords)
    ensures records != [] ==>
              && file == Some(CsvFile(HeaderOf(existing), RowsOf(existing) + WriteRows(records).0))
              && err == if WriteRows(records).1.None? then None else Some(WriteFailed(WriteRows(records).1.value))
  {
    if records == [] {
      return existing, Some(NoRecords);
    }
    var csv := new CSVModel(existing);
    var i := 0;
    ghost var written: seq<Row> := [];
    while i < |records|
      invariant 0 <= i <= |records| && |written| == i
      invariant forall j :: 0 <= j < i ==> WriteRow(records[j]) == Ok(written[j])
      invariant i == 0 ==> csv.file == existing
      invariant i > 0 ==> csv.file == Some(CsvFile(HeaderOf(existing), RowsOf(existing) + written))
    {
      assert csv.file == if i == 0 then existing else Some(CsvFile(HeaderOf(existing), RowsOf(existing) + written));
      assert RowsOf(existing) + [] == RowsOf(existing);
      ghost var prev := csv.file;
      var e := csv.SaveRecord(records[i], None);
      if e.Some? {
        WriteRowsStops(records, written);
        return csv.file, Some(WriteFailed(e.value));
      }
      ghost var row := WriteRow(records[i]).value;
      assert csv.file == Some(AppendRow(prev, row));
      assert RowsOf(existing) + written + [row] == RowsOf(existing) + (written + [row]);
      assert RowsOf(prev) == RowsOf(existing) + written && HeaderOf(prev) == HeaderOf(existing);
      if prev.None? {
        assert RowsOf(existing) + (written + [row]) == [row];
      }
      written := written + [WriteRow(records[i]).value];
      i := i + 1;
    }
    WriteRowsSucceeds(records, written);
    file, err := csv.file, None;
  }

  // ---------------------------------------------------------------------
  // Uploading to the REST server
  // ---------------------------------------------------------------------

  /** How `_upload_to_corporate_rest` ended. */
  datatype UploadEnd =
    | ExtractWarning(message: string)
    | LoginCancelled
    | AuthFailed(message: string)
    | CheckFailed(message: string)
    | Declined                                  // no overwrite, no download
    | DownloadCancelled
    | DownloadFailed(message: string)
    | Downloaded(filename: string, data: string)
    | Uploaded

  /** The upload flow with every outside answer as a parameter: the extract,
      the login dialog, the server's answer to authentication, `check_file`,
      the two yes/no questions, the chosen file name and the download. */
  function UploadFlow(extract: Result<string, string>, login: Option<(string, string)>, auth: Result<(), string>,
                      exists_: Result<Option<bool>, string>, overwrite: bool, download: bool,
                      filename: string, fetched: Result<string, string>): UploadEnd
  {
    if extract.Err? then ExtractWarning(extract.error)
    else if login.None? then LoginCancelled
    else if auth.Err? then AuthFailed(auth.error)
    else if exists_.Err? then CheckFailed(exists_.error)
    else if exists_.value == Some(true) && !overwrite then
      if !download then Declined
      else if filename == "" then DownloadCancelled
      else if fetched.Err? then DownloadFailed(fetched.error)
      else Downloaded(filename, fetched.value)
    else Uploaded
  }

  /** The overwrite gate: the upload happens exactly when every earlier step
      succeeded and the file is not reported present, or the user agreed to
      overwrite it. A status `check_file` lets through without an answer
      counts as absent. */
  lemma UploadGate(extract: Result<string, string>, login: Option<(string, string)>, auth: Result<(), string>,
                   exists_: Result<Option<bool>, string>, overwrite: bool, download: bool,
                   filename: string, fetched: Result<string, string>)
    ensures UploadFlow(extract, login, auth, exists_, overwrite, download, filename, fetched) == Uploaded
            <==> extract.Ok? && login.Some? && auth.Ok? && exists_.Ok? && (exists_.value != Some(true) || overwrite)
    ensures exists_ == Ok(Some(true)) && !overwrite ==>
              UploadFlow(extract, login, auth, exists_, overwrite, download, filename, fetched) != Uploaded
  {
  }

  /** With the status of the server's reply: a file the server reports
      present (status 200) is replaced only when the user agreed. */
  lemma UploadAfterStatus(status: int, message: string, overwrite: bool, download: bool,
                          filename: string, fetched: Result<string, string>)
    ensures var end := UploadFlow(Ok("extract"), Some(("u", "p")), Ok(()), CheckFile(status, message),
                                  overwrite, download, filename, fetched);
            && (status == 200 ==> (end == Uploaded <==> overwrite))
            && (status == 404 ==> end == Uploaded)
            && (status != 404 && 400 <= status < 600 ==> end == CheckFailed(message))
  {
  }

  // ---------------------------------------------------------------------
  // The uploader's message queue
  // ---------------------------------------------------------------------

  datatype Message = Message(status: string, subject: string, body: string)

  predicate Terminal(m: Message) {
    m.status == "done" || m.status == "error"
  }

  function ProgressLine(m: Message): string {
    m.subject + ": " + m.body
  }

  /** The index of the first terminal message, or `None`. */
  function FirstTerminal(queue: seq<Message>): (r: Option<nat>)
    ensures r.Some? ==> r.value < |queue| && Terminal(queue[r.value])
                        && forall j :: 0 <= j < r.value ==> !Terminal(queue[j])
    ensures r.None? ==> forall j :: 0 <= j < |queue| ==> !Terminal(queue[j])
  {
    if queue == [] then None
    else if Terminal(queue[0]) then Some(0)
    else match FirstTerminal(queue[1..])
      case None => None
      case Some(i) => Some(i + 1)
  }

  /** The first terminal message is the one every earlier message is not. */
  lemma FirstTerminalAt(queue: seq<Message>, i: nat)
    requires i < |queue| && Terminal(queue[i]) && forall j :: 0 <= j < i ==> !Terminal(queue[j])
    ensures FirstTerminal(queue) == Some(i)
  {
  }
}
