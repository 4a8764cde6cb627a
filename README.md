# ABQ Data Entry and the Tkinter demos, modelled in Dafny

This project models the rule-bearing parts of the Tkinter textbook corpus behind
the ABQ Data Entry application. The toolkit, the files, the network and the
dialogs are replaced by plain values. Each module follows one source file:

- `Widgets`: the validated inputs of the data record form (Chapter 9). Covers
  the date keystroke grammar, the calendar check on focus-out, required values,
  the case-insensitive combobox autocomplete and the exact-decimal spinbox
  filter. The module also models `ValidatedMixin._validate`, the mapping from a
  field specification to an input class and its arguments, and `_check_disable`.
- `Models`: the storage layer (Chapter 14).
  - The CSV file is a header plus a sequence of row maps.
  - A save either appends a row or rewrites the file with one row replaced.
  - Reading checks the schema columns and coerces booleans.
  - Also modelled: the typed settings store, the SQL query choice and the REST
    status mapping.
- `Views`: the Chapter 14 form and record list.
  - The form: blank-value handling in `get`, `reset` with date autofill and
    sheet carry-over, `get_errors` and `load_record`. Writes to Equipment
    Fault run the `_check_disable` trace of Humidity, Light and Temperature.
  - The record list: its duplicate-free inserted/updated tag lists, tag
    precedence, `populate` and `selected_id`.
- `Application`: the Chapter 15 controller. Covers the save gate with its row
  bookkeeping, the login loop, the CSV extract, the upload overwrite gate and
  the draining of the upload thread's message queue.
- `DataEntryApp`: the Chapter 4 form and application. Covers equipment-fault
  blanking, the error on an unreadable field, `reset` and the save handler that
  appends to the day's file.
- `BugRace`: the Chapter 15 racer.
  - `partition` splits n into k nearly equal integers.
  - Steps go through a FIFO movement queue.
  - `plot_course` bounces each leg off the canvas edges and stops at the right
    edge. Its random draws are given in order as a parameter.
- `Bananas`: the Chapter 4 `Banana` class and its `RedBanana` subclass.
- `MainMenu`: the Chapter 16 dispatch from OS name to menu class, the shared
  keybind tables and the Windows menu's deletion from them, and
  `_bind_accelerators`.
- `ProcessBackend`: the Chapter 10 dispatch from OS name to process getter and
  the getters' command tables.
- `RestService`: the Chapter 13 sample REST service. It is a state machine over
  the session's login flag and a store that maps file names to contents.

Shared vocabulary sits in `Common` (option and result types, and the few Python
string functions the code relies on). `Decimals` holds exact decimals: a
coefficient and an exponent, with Python's `Decimal` parsing of finite numbers.
`TkVars` holds Tk control variables: a variable class and its Tcl string, with
what `get` and `set` do. `Constants` holds the field types.

Objects whose methods update their fields are classes. These are the form and
record list, the two applications, the CSV and settings models, the racer, the
banana, the REST session, the menu root and the menu class table. Their methods
are proved against functions over the old state. The validators, the
dispatchers and the readers are functions, with lemmas for the properties that
relate several calls:

- a date written as `YYYY-MM-DD` parses back;
- a saved record reads back;
- the course's steps add up to the legs drawn;
- the upload happens only when the file is absent or the user agreed to
  overwrite it.

## Model

| member | source | states |
|---|---|---|
| Widgets.DateKeyValid | Chapter09/ABQ_Data_Entry/abq_data_entry/widgets.py:103-114 | a keystroke that is not a deletion is accepted only at one of the digit positions (0-3, 5, 6, 8, 9) or dash positions (4, 7) |
| Widgets.PositionKinds | Chapter09/ABQ_Data_Entry/abq_data_entry/widgets.py:108-111 | index text below ten is a dash position iff it is 4 or 7, and a digit position otherwise |
| Widgets.DateKeyAt | Chapter09/ABQ_Data_Entry/abq_data_entry/widgets.py:103-114 | a character typed at index n is accepted iff n < 10 and it is what a `YYYY-MM-DD` string has there (a digit, or `-` at 4 and 7), so no position from ten on accepts anything |
| Widgets.DateKeyAtEnd | Chapter09/ABQ_Data_Entry/abq_data_entry/widgets.py:103-114 | appending a character to a prefix of the date shape is accepted iff the result is still such a prefix, so typing never exceeds ten characters |
| Widgets.ParseIsoDate | Chapter09/ABQ_Data_Entry/abq_data_entry/widgets.py:121-125 | a text that `strptime(…, '%Y-%m-%d')` accepts denotes a real calendar date (month 1-12, day within the month, leap years counted) |
| Widgets.DigitsValuePad4 | Chapter09/ABQ_Data_Entry/abq_data_entry/widgets.py:121-125 | a year 0-9999 written as four zero-padded digits reads back as that year |
| Widgets.ParseIsoText | Chapter09/ABQ_Data_Entry/abq_data_entry/widgets.py:121-125 | round trip: every valid date written as `YYYY-MM-DD` parses back to that same date |
| Widgets.DateFocusOut | Chapter09/ABQ_Data_Entry/abq_data_entry/widgets.py:116-126 | valid iff the text parses as a calendar date; otherwise the error is 'Invalid date', also for empty text, whose 'A value is required' is overwritten |
| Widgets.RequiredFocusOut | Chapter09/ABQ_Data_Entry/abq_data_entry/widgets.py:131-136 | valid iff the text is non-empty; the error is exactly 'A value is required' when empty and '' otherwise |
| Widgets.Matching | Chapter09/ABQ_Data_Entry/abq_data_entry/widgets.py:150-154 | holds exactly the values whose lower-cased text starts with the lower-cased proposal, and no more entries than there are values |
| Widgets.ComboboxKeyMeaning | Chapter09/ABQ_Data_Entry/abq_data_entry/widgets.py:141-162 | a key that is not a deletion is accepted iff two or more values match; the text is replaced iff exactly one value matches, and then with that only matching value |
| Widgets.SpinKey | Chapter09/ABQ_Data_Entry/abq_data_entry/widgets.py:228-263 | an accepted key (other than a deletion) leaves either a partial entry ('', '-', '.', '-.') or a decimal not above the maximum and with no more decimal places than the increment allows; a key the character filter refuses is refused. The filter refuses characters outside `-1234567890.`, a `-` that is not at index 0 or is typed when min >= 0, and a `.` when no decimals are allowed or one is already there |
| Widgets.SpinKeyAgrees | Chapter09/ABQ_Data_Entry/abq_data_entry/widgets.py:228-263 | wherever the code as written does not raise, it gives the same verdict as `SpinKey`; it raises exactly for keys that pass the filter and propose a text that is neither a partial entry nor a decimal |
| Widgets.SpinKeyIgnoresMinimum | Chapter09/ABQ_Data_Entry/abq_data_entry/widgets.py:234-236 | two spinboxes whose minimums have the same sign judge every key alike, so no key is refused for being below the minimum |
| Widgets.SpinKeyRaisesExample | Chapter09/ABQ_Data_Entry/abq_data_entry/widgets.py:247-256 | with the text '-1', typing '2' at index 0 passes the filter and proposes '2-1', on which `Decimal` raises; the corrected check refuses it |
| Widgets.SpinFocusOut | Chapter09/ABQ_Data_Entry/abq_data_entry/widgets.py:265-284 | valid iff the text is a decimal within both bounds; a non-decimal gives 'Invalid number string: <text>', a value above the maximum 'Value is too high (max <max>)' even when it is also below the minimum, and a value only below the minimum 'Value is too low (min <min>)'; the error is empty iff the value is valid |
| Widgets.FocusOutCheck | Chapter09/ABQ_Data_Entry/abq_data_entry/widgets.py:116-170 | the focus-out check of each mixin input class is valid iff it leaves no error text |
| Widgets.Validate | Chapter09/ABQ_Data_Entry/abq_data_entry/widgets.py:41-65 | the error is cleared first; a disabled input, or an event other than 'key' or 'focusout', is valid with nothing else changed; only 'focusout' can leave an error text; only the combobox's key check can change the variable |
| Widgets.TriggerFocusout | Chapter09/ABQ_Data_Entry/abq_data_entry/widgets.py:94-98 | only the error text changes, and the result is True iff no error text is left |
| Widgets.TriggerFocusoutError | Chapter09/ABQ_Data_Entry/abq_data_entry/widgets.py:306-309 | the error left is '' for a disabled mixin input and the focus-out check's error for an enabled one; a radio group gets 'A value is required' exactly when it has no value |
| Widgets.Fill | Chapter09/ABQ_Data_Entry/abq_data_entry/widgets.py:372-380 | one copying step changes only its own key; the key is present iff the caller gave it or the specification has the entry, and the caller's argument wins |
| Widgets.FillSteps | Chapter09/ABQ_Data_Entry/abq_data_entry/widgets.py:368-380 | after the four steps, each of `from_`, `to`, `increment` and `values` holds the caller's argument if given, else the specification's entry, else nothing; other keys are untouched |
| Widgets.BindSteps | Chapter09/ABQ_Data_Entry/abq_data_entry/widgets.py:383-396 | buttons get the label as `text`; buttons and radio inputs are bound through `variable` and every other input through `textvariable`; no other key changes |
| Widgets.ResolveInput | Chapter09/ABQ_Data_Entry/abq_data_entry/widgets.py:356-396 | the input class comes from the field type only when a non-empty specification is given and the caller named no class (a missing type means a string field); specification entries fill only arguments the caller left out; label text and variable binding as in `BindSteps`; all other arguments are untouched |
| Widgets.SpinFor | Chapter09/ABQ_Data_Entry/abq_data_entry/widgets.py:175-180 | a spinbox built without an increment allows no decimal places |
| Widgets.KindFor | Chapter09/ABQ_Data_Entry/abq_data_entry/widgets.py:345-354 | an input built from a field type is validated through the mixin iff its class is `RequiredEntry`, `DateEntry`, `ValidatedCombobox` or `ValidatedSpinbox` |
| Widgets.NewBound | Chapter09/ABQ_Data_Entry/abq_data_entry/widgets.py:202-213 | a bound variable that does not read leaves the bound as it was |
| Widgets.LabelInput.constructor | Chapter09/ABQ_Data_Entry/abq_data_entry/widgets.py:356-427 | a new labelled input is enabled, has no error text and remembers whether it has a disabling variable |
| Widgets.LabelInput.OnValidate | Chapter09/ABQ_Data_Entry/abq_data_entry/widgets.py:41-65 | the verdict and the new input state are those of `Validate` on the old state |
| Widgets.LabelInput.TriggerFocusoutValidation | Chapter09/ABQ_Data_Entry/abq_data_entry/widgets.py:94-98 | the verdict and the new state are those of `TriggerFocusout` on the old state |
| Widgets.LabelInput.SetMinimum | Chapter09/ABQ_Data_Entry/abq_data_entry/widgets.py:202-213 | the minimum becomes the variable's number (kept when it does not read), then focus-out validation runs on the result |
| Widgets.LabelInput.SetMaximum | Chapter09/ABQ_Data_Entry/abq_data_entry/widgets.py:215-226 | the same for the maximum |
| Widgets.DisableChecked | Chapter09/ABQ_Data_Entry/abq_data_entry/widgets.py:428-437 | `_check_disable` on an input: the widget and variable type stay; the input ends disabled iff the disabling variable reads true; a disabling variable that does not read leaves the input as it was; an input left enabled keeps its variable and error text |
| Widgets.DisableCheckedMeaning | Chapter09/ABQ_Data_Entry/abq_data_entry/widgets.py:428-437 | a true disabling value leaves a non-boolean input disabled with an empty variable and no error, and its focus-out validation then reports nothing; a false one only enables the input |
| Widgets.DisableCheckedIdempotent | Chapter09/ABQ_Data_Entry/abq_data_entry/widgets.py:424-437 | running the trace twice against the same disabling variable is running it once |
| Widgets.LabelInput.CheckDisable | Chapter09/ABQ_Data_Entry/abq_data_entry/widgets.py:428-437 | without a disabling variable nothing changes; otherwise the new state is `DisableChecked` of the old one: a variable that does not read raises and changes nothing, a false value enables the input, and a true one disables it and clears its variable and its error |
| TkVars.ParseInt | Chapter14/ABQ_Data_Entry/abq_data_entry/views.py:294-300 | Tcl's integer reading never accepts an empty string |
| TkVars.Get | Chapter14/ABQ_Data_Entry/abq_data_entry/views.py:294-300 | a StringVar reads its text; IntVar, DoubleVar and BooleanVar read a value of their own type or raise, with Tcl's 'expected floating-point number' message for numbers and a `ValueError` for booleans |
| TkVars.Set | Chapter14/ABQ_Data_Entry/abq_data_entry/views.py:367-368 | storing keeps the variable's class; non-boolean variables store the value's text; a BooleanVar holds '0' or '1' |
| TkVars.Cleared | Chapter14/ABQ_Data_Entry/abq_data_entry/views.py:317-322 | a cleared variable keeps its class and holds '0' when it is a BooleanVar, '' otherwise |
| TkVars.BlankRead | Chapter14/ABQ_Data_Entry/abq_data_entry/views.py:294-300 | an empty StringVar reads ''; an empty IntVar or DoubleVar raises the 'expected floating-point number but got ""' error; an empty BooleanVar raises `ValueError` |
| TkVars.ClearedRead | Chapter04/data_entry_app.py:261-269 | a cleared variable reads as False when it is a BooleanVar and as '' when it is a StringVar |
| TkVars.IntRoundTrip | Chapter14/ABQ_Data_Entry/abq_data_entry/views.py:367-368 | an integer stored in an IntVar reads back as that integer |
| TkVars.BoolRoundTrip | Chapter14/ABQ_Data_Entry/abq_data_entry/views.py:367-368 | a boolean stored in a BooleanVar reads back as that boolean |
| TkVars.IntVarTruncates | Chapter04/data_entry_app.py:113 | an IntVar holding a decimal with a fraction reads as the integer truncated toward zero |
| Decimals.Normalize | Chapter09/ABQ_Data_Entry/abq_data_entry/widgets.py:179-180 | `normalize()` leaves no trailing zero in the coefficient, and zero becomes 0E0 |
| Decimals.NormalizeKeepsValue | Chapter09/ABQ_Data_Entry/abq_data_entry/widgets.py:179-180 | normalizing never changes the number a decimal denotes |
| Decimals.ParseSciText | Chapter09/ABQ_Data_Entry/abq_data_entry/widgets.py:254 | round trip: every decimal written as `<coefficient>E<exponent>` parses back to itself |
| Decimals.ParsePointed | Chapter09/ABQ_Data_Entry/abq_data_entry/widgets.py:254-255 | a `[-]whole.frac` text parses to the digits' value with exponent minus the number of fraction digits, so its precision is that count |
| Decimals.ParseDigits | Chapter09/ABQ_Data_Entry/abq_data_entry/widgets.py:254-255 | a `[-]digits` text parses with exponent 0 |
| Views.ReadField | Chapter14/ABQ_Data_Entry/abq_data_entry/views.py:294-300 | a successful read is the variable's value, and an error is passed on exactly as the variable raised it; otherwise the result is `None` |
| Views.BlankMessageOnlyWhenEmpty | Chapter14/ABQ_Data_Entry/abq_data_entry/views.py:278-286 | Tk's message for a number variable that does not read counts as a blank value iff the text is empty |
| Views.ReadFieldNone | Chapter14/ABQ_Data_Entry/abq_data_entry/views.py:288-302 | a read becomes `None` exactly for an empty IntVar or DoubleVar; an empty BooleanVar still raises |
| Views.ReadCleared | Chapter14/ABQ_Data_Entry/abq_data_entry/views.py:316-322 | after the clearing step, `get` reads '' for a string, `None` for a number and False for a boolean |
| Views.IndexOf | Chapter14/ABQ_Data_Entry/abq_data_entry/views.py:337 | `list.index`: the first position holding the value |
| Views.AfterFocusoutError | Chapter14/ABQ_Data_Entry/abq_data_entry/views.py:349-350 | focus-out validation changes only an input's error text; inputs without it keep their error |
| Views.ErrorsIn | Chapter14/ABQ_Data_Entry/abq_data_entry/views.py:351-352 | the pairs are exactly the fields whose error text is non-empty, each with that text |
| Views.ErrorsInFrame | Chapter14/ABQ_Data_Entry/abq_data_entry/views.py:341-354 | the errors reported for a list of fields depend only on those fields' inputs |
| Views.LoadField | Chapter14/ABQ_Data_Entry/abq_data_entry/views.py:368-372 | loading a field succeeds iff setting its variable does, and then the input holds the new value after focus-out validation |
| Views.NextPlotExists | Chapter14/ABQ_Data_Entry/abq_data_entry/views.py:331-337 | when the sheet is carried over, the old plot is listed and is not the last one, so the next index is within the list |
| Views.NextPlot | Chapter14/ABQ_Data_Entry/abq_data_entry/views.py:337-338 | the plot after the old one is itself one of the plot values |
| Views.SameWidgetsShape | Chapter14/ABQ_Data_Entry/abq_data_entry/views.py:288-372 | forms that differ only in variable values and error texts have the same shape |
| Views.ReadFields | Chapter14/ABQ_Data_Entry/abq_data_entry/views.py:288-302 | succeeds iff every field reads, giving one entry per field with its read value; otherwise the error is that of one of the fields |
| Views.ClearFieldTraced | Chapter14/ABQ_Data_Entry/abq_data_entry/views.py:156-183 | one clearing step is the write of '' (False for a boolean) followed by the traces it fires: each input disabled by the field reads False and is enabled |
| Views.ClearStep | Chapter14/ABQ_Data_Entry/abq_data_entry/views.py:316-321 | after one more pass of the clearing loop, the fields up to and including that one are cleared and the inputs they disable are enabled |
| Views.ClearFromMeaning | Chapter14/ABQ_Data_Entry/abq_data_entry/views.py:316-321 | running the clearing loop over the remaining fields ends in the cleared form with every linked input enabled |
| Views.ClearInputs | Chapter14/ABQ_Data_Entry/abq_data_entry/views.py:316-321 | the clearing loop leaves every variable cleared (False for booleans, '' otherwise) and every input that a field disables enabled, since the False written into that field fires its trace; nothing else changes |
| Views.WithSheet | Chapter14/ABQ_Data_Entry/abq_data_entry/views.py:325-337 | the form with the five sheet fields set to the given texts; every other field and every widget is unchanged |
| Views.ClearedForm | Chapter14/ABQ_Data_Entry/abq_data_entry/views.py:316-321 | the same fields, each with its variable cleared; a linked input is enabled, every other input keeps its state |
| Views.ResetForm | Chapter14/ABQ_Data_Entry/abq_data_entry/views.py:304-339 | `reset` keeps the fields and leaves the sheet fields as string variables and the Plot input a combobox |
| Views.ResetOutcome | Chapter14/ABQ_Data_Entry/abq_data_entry/views.py:304-339 | after `reset` every non-sheet field is cleared and every input that Equipment Fault disables is enabled. The Date is today's ISO date when 'autofill date' is on and '' otherwise. When 'autofill sheet data' is on and the old plot is not '' or the last plot, Lab, Time and Technician are restored and Plot moves to the next value; otherwise those fields are cleared. An empty plot list raises |
| Views.ResetKeepsShape | Chapter14/ABQ_Data_Entry/abq_data_entry/views.py:304-339 | `reset` keeps the form's fields, widgets, variable types and disabling links |
| Views.ResetSheet | Chapter14/ABQ_Data_Entry/abq_data_entry/views.py:323-339 | the branches of `reset` give exactly the sheet `SheetAfterReset` describes and the exception `ResetRaises` describes |
| Views.ResetInputs | Chapter14/ABQ_Data_Entry/abq_data_entry/views.py:304-339 | the loop-based `reset` gives exactly `ResetForm`'s form and exception and keeps the form's shape |
| Views.Focused | Chapter14/ABQ_Data_Entry/abq_data_entry/views.py:341-354 | the same fields, each input after its own focus-out validation |
| Views.CollectErrors | Chapter14/ABQ_Data_Entry/abq_data_entry/views.py:341-354 | the loop validates every input on focus-out and returns, in field order, exactly the fields left with an error text |
| Views.LoadStep | Chapter14/ABQ_Data_Entry/abq_data_entry/views.py:367-372 | one pass of the loop succeeds iff setting the variable does, and keeps the fields |
| Views.Loaded | Chapter14/ABQ_Data_Entry/abq_data_entry/views.py:367-372 | the loop over the fields keeps them, counts the fields loaded, and raises exactly when it stopped early |
| Views.LoadedFold | Chapter14/ABQ_Data_Entry/abq_data_entry/views.py:367-372 | the loop is a fold of `LoadStep` over the fields |
| Views.LoadStepAt | Chapter14/ABQ_Data_Entry/abq_data_entry/views.py:367-372 | one pass loads its field, runs `_check_disable` on the inputs that field disables against its new variable, and leaves every other input as it was |
| Views.ExpectedShift | Chapter14/ABQ_Data_Entry/abq_data_entry/views.py:367-372 | after one pass, what each input is expected to end as over the remaining fields is what it was expected to end as over all of them |
| Views.LoadedInputs | Chapter14/ABQ_Data_Entry/abq_data_entry/views.py:367-372 | after a load that raised nothing, each input is `Expected`: loaded from `data.get(key, '')`, and, when its disabling field was loaded, checked against that field's new value after its own load (field before the disabling one) or before it (field after) |
| Views.LoadedDisabled | Chapter14/ABQ_Data_Entry/abq_data_entry/views.py:367-372 | with a true disabling value, an input ends disabled and without error, and `get_errors` leaves it so; loaded before its disabling field, it also ends with an empty variable |
| Views.LoadedEnabled | Chapter14/ABQ_Data_Entry/abq_data_entry/views.py:367-372 | with a false disabling value, an input ends enabled and otherwise as its own load left it |
| Views.FaultedRecordLoad | Chapter14/ABQ_Data_Entry/abq_data_entry/views.py:156-183 | loading a record whose Equipment Fault is True leaves Humidity, Light and Temperature disabled, empty and without error |
| Views.LoadFields | Chapter14/ABQ_Data_Entry/abq_data_entry/views.py:367-372 | the loop gives exactly `Loaded`: fields are loaded in order until one raises, each write firing the traces of the inputs it disables |
| Views.DataRecordForm.constructor | Chapter14/ABQ_Data_Entry/abq_data_entry/views.py:34-273 | a new form over inputs already built and its disabling links has no current record and no title |
| Views.DataRecordForm.Get | Chapter14/ABQ_Data_Entry/abq_data_entry/views.py:288-302 | one entry per form field when every field reads (blank numbers as `None`); otherwise the read error of the first field, in field order, that does not read |
| Views.DataRecordForm.Reset | Chapter14/ABQ_Data_Entry/abq_data_entry/views.py:304-339 | the inputs and exception become `ResetForm` of the old inputs and the form's links, so the linked inputs end enabled; the current record and the label are unchanged |
| Views.DataRecordForm.GetErrors | Chapter14/ABQ_Data_Entry/abq_data_entry/views.py:341-354 | every input is focus-out validated, and the result is the fields with a non-empty error text, each with that text, in field order |
| Views.DataRecordForm.LoadRecord | Chapter14/ABQ_Data_Entry/abq_data_entry/views.py:357-372 | the current record becomes the key. Without a key the form is reset and titled 'New Record' unless the reset raised. With a key the title names the lab, plot, date and time, and the inputs become `Loaded` of the old ones, traces included; a field that raises is passed on |
| Views.NewForm | Chapter14/ABQ_Data_Entry/abq_data_entry/views.py:34-273 | `__init__`: the fields in schema order, Humidity, Light and Temperature disabled by Equipment Fault, and the form `ResetForm` leaves; an exception from that `reset` leaves no form |
| Views.ListKey | Chapter14/ABQ_Data_Entry/abq_data_entry/views.py:527-530 | a row has a key iff it has Date, Time, Lab and Plot; the key is the `str` of each; otherwise `KeyError` names a missing column |
| Views.TagFor | Chapter14/ABQ_Data_Entry/abq_data_entry/views.py:531-536 | 'inserted' iff the key is in the inserted list; 'updated' iff it is only in the updated list; '' iff in neither |
| Views.RecordList.constructor | Chapter14/ABQ_Data_Entry/abq_data_entry/views.py:466-517 | a new list has empty tag lists, no rows and an empty `iid_map` |
| Views.RecordList.AddInsertedRow | Chapter14/ABQ_Data_Entry/abq_data_entry/views.py:563-565 | the row is appended only when absent, so the list stays duplicate-free; nothing else changes |
| Views.RecordList.AddUpdatedRow | Chapter14/ABQ_Data_Entry/abq_data_entry/views.py:559-561 | the same for the updated list |
| Views.RecordList.ClearTags | Chapter14/ABQ_Data_Entry/abq_data_entry/views.py:567-569 | both tag lists are empty afterwards; the rows on show are unchanged |
| Views.RecordList.Populate | Chapter14/ABQ_Data_Entry/abq_data_entry/views.py:519-540 | `iid_map` is cleared, then each row is shown in order under a fresh id with its key and its tag, and `iid_map` holds exactly the new ids. A row lacking a column raises and leaves the rows before it on show |
| Views.RecordList.SelectedId | Chapter14/ABQ_Data_Entry/abq_data_entry/views.py:553-556 | `None` iff nothing is selected; otherwise the key `iid_map` gives the first selected id; `KeyError` iff that id is not mapped |
| Views.SelectShown | Chapter14/ABQ_Data_Entry/abq_data_entry/views.py:553-556 | selecting a row that `populate` showed gives back that row's key |
| Models.SchemaLists | Chapter14/ABQ_Data_Entry/abq_data_entry/models.py:285-290 | the header is the schema's names in order, and the boolean field list is exactly the boolean-typed fields |
| Models.WriteRow | Chapter14/ABQ_Data_Entry/abq_data_entry/models.py:250-258 | writing succeeds iff every key of the record is a schema field; the row then has every schema column, the record's values as text and '' for the rest; otherwise the error names the extra fields |
| Models.WriteRows | Chapter14/ABQ_Data_Entry/abq_data_entry/models.py:265-266 | the records are written in order until the first that cannot be; it fails iff not all are written |
| Models.AppendRow | Chapter14/ABQ_Data_Entry/abq_data_entry/models.py:250-258 | a new file gets the header then the row; an existing file keeps its header and gains exactly one row at the end |
| Models.ReadRow | Chapter14/ABQ_Data_Entry/abq_data_entry/models.py:282 | a row read keeps its columns as keys |
| Models.CoerceFields | Chapter14/ABQ_Data_Entry/abq_data_entry/models.py:292-293 | succeeds iff every boolean field is present; then each boolean field is True iff its lower-cased text is 'true', 'yes' or '1', and every other field is left as read |
| Models.CoerceAll | Chapter14/ABQ_Data_Entry/abq_data_entry/models.py:291-294 | succeeds iff every row does; then one record per row, in order |
| Models.ReadRecords | Chapter14/ABQ_Data_Entry/abq_data_entry/models.py:268-294 | no file reads as no records; a header lacking schema fields raises naming exactly those fields; otherwise the rows, corrected |
| Models.MissingNone | Chapter14/ABQ_Data_Entry/abq_data_entry/models.py:276-277 | no field is missing iff every schema field is in the header |
| Models.PyIndex | Chapter14/ABQ_Data_Entry/abq_data_entry/models.py:303 | Python indexing: defined iff -n <= i < n, and a negative index counts from the end |
| Models.CSVModel.constructor | Chapter14/ABQ_Data_Entry/abq_data_entry/models.py:228-245 | the model is over the given file |
| Models.CSVModel.GetAllRecords | Chapter14/ABQ_Data_Entry/abq_data_entry/models.py:268-294 | the records are `ReadRecords` of the file |
| Models.CSVModel.GetRecord | Chapter14/ABQ_Data_Entry/abq_data_entry/models.py:296-303 | the record at the Python index, `IndexError` when there is none, or the reading error |
| Models.CSVModel.SaveRecord | Chapter14/ABQ_Data_Entry/abq_data_entry/models.py:247-266 | without a row number one row is appended, after the header when the file is new. With one, the records are read, the one at the index is replaced and the file is rewritten with a single header. A reading error or a bad index leaves the file unchanged |
| Models.CSVModel.Rewrite | Chapter14/ABQ_Data_Entry/abq_data_entry/models.py:262-266 | the file becomes the header and the rows written |
| Models.CoerceRows | Chapter14/ABQ_Data_Entry/abq_data_entry/models.py:291-294 | the loop gives `CoerceAll` of the rows |
| Models.WriteAll | Chapter14/ABQ_Data_Entry/abq_data_entry/models.py:265-266 | the loop gives `WriteRows` of the records |
| Models.CoerceAllAppend | Chapter14/ABQ_Data_Entry/abq_data_entry/models.py:291-294 | reading one more good row adds its record at the end |
| Models.BoolCellReadsBack | Chapter14/ABQ_Data_Entry/abq_data_entry/models.py:285-293 | a boolean written to a cell reads back as that boolean |
| Models.RowRoundTrip | Chapter14/ABQ_Data_Entry/abq_data_entry/models.py:250-293 | a row with exactly the schema's columns reads, writes back and reads again to the same record |
| Models.WrittenRowReads | Chapter14/ABQ_Data_Entry/abq_data_entry/models.py:250-293 | a written row always has the boolean columns, so it reads back |
| Models.AppendReadBack | Chapter14/ABQ_Data_Entry/abq_data_entry/models.py:250-293 | appending a record adds exactly one record, at the end, to what the file reads as |
| Models.UpdateReadBack | Chapter14/ABQ_Data_Entry/abq_data_entry/models.py:259-293 | replacing row `rownum` writes every row back, and the file then reads as the old records with exactly that one replaced, and as many of them |
| Models.WrittenRowsRead | Chapter14/ABQ_Data_Entry/abq_data_entry/models.py:259-293 | records that each write to a row reading back as the expected record all write, and the rows read back as the expected records |
| Models.ReplacedRowsEach | Chapter14/ABQ_Data_Entry/abq_data_entry/models.py:259-293 | with row i replaced, every record writes to a row that reads back as the old record, or as the new one at i |
| Models.ReadWritten | Chapter14/ABQ_Data_Entry/abq_data_entry/models.py:268-294 | a file with exactly the schema header reads as its rows, corrected |
| Models.KeptRowReads | Chapter14/ABQ_Data_Entry/abq_data_entry/models.py:259-293 | a record read from a schema row writes to a row that reads back as that record |
| Models.SettingsModel.constructor | Chapter14/ABQ_Data_Entry/abq_data_entry/models.py:334-341 | the settings are the defaults, then each overwritten as `load` takes it from the saved file; types stay as declared |
| Models.SettingsModel.Set | Chapter14/ABQ_Data_Entry/abq_data_entry/models.py:343-351 | a known key whose declared type is the value's type name gets the value and nothing else changes; otherwise 'Bad key or wrong variable type' is raised and nothing changes |
| Models.SettingsModel.Load | Chapter14/ABQ_Data_Entry/abq_data_entry/models.py:359-374 | a missing file changes nothing; otherwise each known key whose saved entry has a value takes it, unchecked; unknown keys are ignored and the key set and declared types never change |
| Models.SqlSave | Chapter14/ABQ_Data_Entry/abq_data_entry/models.py:134-163 | the plot-check UPDATE iff a row key is given (the record then gains `key_date` … `key_plot` from it), the INSERT otherwise; the lab-check UPDATE iff a lab check exists for (Date, Time, Lab); a record without those raises `KeyError` |
| Models.CheckFile | Chapter14/ABQ_Data_Entry/abq_data_entry/models.py:470-478 | True iff status 200, False iff 404; an error status other than 404 raises with the server's message; any other status gives `None` |
| Application.ErrorFields | Chapter15/ABQ_Data_Entry/abq_data_entry/application.py:130-131 | the field names of the error list, in order |
| Application.FocusedKeepsVariables | Chapter14/ABQ_Data_Entry/abq_data_entry/views.py:341-354 | `get_errors` changes only the error texts: variables, widgets and the sheet shape stay |
| Application.FocusedFirstFailure | Chapter15/ABQ_Data_Entry/abq_data_entry/application.py:145 | the first field that does not read is the same before focus-out validation as after it |
| Application.ErrorFieldsMeaning | Chapter15/ABQ_Data_Entry/abq_data_entry/application.py:127-143 | the error list is non-empty exactly when some input fails focus-out validation, and its fields are exactly those inputs |
| Application.Application.constructor | Chapter15/ABQ_Data_Entry/abq_data_entry/application.py:45-120 | both row lists are empty and no record is saved |
| Application.Application.OnSave | Chapter15/ABQ_Data_Entry/abq_data_entry/application.py:123-159 | a form with errors sets the status 'Cannot save, error in fields: …' listing exactly those fields, in field order, and saves nothing. A read error, that of the first field in order that does not read, saves nothing. Otherwise the read record is saved, the form is reset and `Stored` holds |
| Application.Application.ReportErrors | Chapter15/ABQ_Data_Entry/abq_data_entry/application.py:127-143 | `get_errors` runs; the fields in error are listed in field order, exactly those failing focus-out validation, and only then is the status line set; nothing else in the bookkeeping changes |
| Application.Application.Book | Chapter15/ABQ_Data_Entry/abq_data_entry/application.py:145-156 | one save: the record goes to the database; a row key goes to the updated list and otherwise the new (Date, Time, Lab, Plot) key to the inserted list, never both; the counter goes up by one and the status says so |
| Application.Application.SaveChecked | Chapter15/ABQ_Data_Entry/abq_data_entry/application.py:145-159 | once the form has no errors: a read error saves nothing, otherwise the record read is booked and the form reset |
| Application.Application.SaveRead | Chapter15/ABQ_Data_Entry/abq_data_entry/application.py:146-158 | the record read is booked (`Stored`) and the form becomes `ResetForm` of the validated form |
| Application.Application.CheckQueue | Chapter15/ABQ_Data_Entry/abq_data_entry/application.py:467-488 | messages are consumed oldest first. At the first 'done' or 'error' message the status becomes its subject, the rest stays queued and there is no rescheduling. Otherwise each message shows 'subject: body' and the drained queue is rescheduled. The bookkeeping is unchanged |
| Application.SimpleLogin | Chapter15/ABQ_Data_Entry/abq_data_entry/application.py:175-178 | True iff the user name is 'abq' and the password 'Flowers' |
| Application.ShowLogin | Chapter15/ABQ_Data_Entry/abq_data_entry/application.py:193-204 | False at the first cancelled dialog, True at the first accepted login; every earlier attempt failed; the first dialog shows no error and every later one 'Login Failed' |
| Application.CreateCsvExtract | Chapter15/ABQ_Data_Entry/abq_data_entry/application.py:309-316 | no records raises 'No records were found…' and writes nothing; otherwise every record is appended, in order, up to the first that cannot be written |
| Application.UploadGate | Chapter15/ABQ_Data_Entry/abq_data_entry/application.py:396-465 | the upload happens iff the extract, the login and the authentication succeed, the existence check answers, and the file is not reported present or the user agreed to overwrite; declining never uploads, whatever the download choice |
| Application.UploadAfterStatus | Chapter15/ABQ_Data_Entry/abq_data_entry/application.py:433-465 | with the server's status: 200 uploads iff the user agreed to overwrite, 404 uploads, another error status stops with the server's message |
| Application.FirstTerminal | Chapter15/ABQ_Data_Entry/abq_data_entry/application.py:467-488 | the index of the first 'done' or 'error' message, `None` iff there is none |
| Application.FirstTerminalAt | Chapter15/ABQ_Data_Entry/abq_data_entry/application.py:467-488 | a terminal message preceded only by non-terminal ones is the first terminal message |
| DataEntryApp.ReadVarMeaning | Chapter04/data_entry_app.py:248-257 | with the equipment faulty, Light, Humidity and Temperature read '' whatever they hold; any other field reads its variable's value; a StringVar always reads; a number field that does not read fails with 'Error in field: <key>.  Data was not saved!', while a BooleanVar's `ValueError` passes through unchanged |
| DataEntryApp.ReadAll | Chapter04/data_entry_app.py:249-257 | success gives one entry per field with its value; a failure is the error of one of the fields |
| DataEntryApp.ReadAllPrefixFails | Chapter04/data_entry_app.py:249-257 | a failure among the first n fields decides the result, whatever follows |
| DataEntryApp.ReadAllStep | Chapter04/data_entry_app.py:249-257 | reading one more field either fails with its error or adds its value to the data |
| DataEntryApp.ReadAllAgree | Chapter04/data_entry_app.py:249-257 | readers that agree on every field give the same result |
| DataEntryApp.FaultIgnoresReadings | Chapter04/data_entry_app.py:248-251 | with the equipment faulty, what the Light, Humidity and Temperature variables hold makes no difference to `get` |
| DataEntryApp.FaultBlanks | Chapter04/data_entry_app.py:248-251 | with the equipment faulty, a successful `get` reports '' for Light, Humidity and Temperature |
| DataEntryApp.FormGetErrors | Chapter04/data_entry_app.py:247-257 | `get` fails only with the `getboolean` message (the fault flag or another BooleanVar does not read) or with 'Error in field: <key>.  Data was not saved!' naming a number field that does not read |
| DataEntryApp.ClearedVars | Chapter04/data_entry_app.py:261-269 | every variable is kept with its class, in its cleared state |
| DataEntryApp.InitialVars | Chapter04/data_entry_app.py:108-126 | a new form has the seventeen declared variables, booleans False and the others '' |
| DataEntryApp.FieldOrderCoversTypes | Chapter04/data_entry_app.py:108-126 | the field order lists exactly the declared variables |
| DataEntryApp.DataRecordForm.constructor | Chapter04/data_entry_app.py:104-240 | the form starts with its declared fields, reset |
| DataEntryApp.DataRecordForm.Get | Chapter04/data_entry_app.py:242-259 | the field-by-field loop gives `FormGet` of the variables |
| DataEntryApp.DataRecordForm.Reset | Chapter04/data_entry_app.py:261-269 | every BooleanVar becomes False and every other variable '' |
| DataEntryApp.AllCleared | Chapter04/data_entry_app.py:261-269 | variables for exactly the fields, each cleared, are the cleared variables |
| DataEntryApp.Application.constructor | Chapter04/data_entry_app.py:275-295 | no records saved, empty status, the form reset |
| DataEntryApp.Application.Store | Chapter04/data_entry_app.py:313-321 | the row is appended to the file (after a header when it is new), the counter goes up by one and the status says '<n> records saved this session' |
| DataEntryApp.Application.OnSave | Chapter04/data_entry_app.py:297-322 | a failed `get` puts its message in the status and writes nothing. Otherwise the day's file gains the row, after a header only when it is new, the counter goes up by one and the form is reset |
| DataEntryApp.Application.Keep | Chapter04/data_entry_app.py:313-322 | the row is stored in the named file, the counter and status updated, and the form reset |
| BugRace.Bumped | Chapter15/bug_race.py:73-76 | a list of exactly m parts |
| BugRace.BumpedAt | Chapter15/bug_race.py:73-76 | the first `bumped` parts are one larger than the base, the rest are the base |
| BugRace.BumpedSum | Chapter15/bug_race.py:73-76 | the parts add up to m times the base plus the number bumped |
| BugRace.PartsSum | Chapter15/bug_race.py:68-77 | for k > 0, `partition(n, k)` has exactly k parts adding up to n |
| BugRace.PartsShape | Chapter15/bug_race.py:73-76 | every part is n // k or n // k + 1, the larger exactly for the first n % k, so the list is non-increasing and no two parts differ by more than one |
| BugRace.PartsOfZero | Chapter15/bug_race.py:71-72 | the general rule applied to 0 gives k zeros too |
| BugRace.Partition | Chapter15/bug_race.py:68-77 | k zeros for n = 0; a division error iff n != 0 and k = 0; for k > 0 the parts of `Parts`; no parts for negative k |
| BugRace.Zip | Chapter15/bug_race.py:118-120 | as many steps as x parts |
| BugRace.StepsAddUp | Chapter15/bug_race.py:114-121 | a move split into `numSteps` > 0 steps gives that many steps, whose x parts add up to dx and y parts to dy |
| BugRace.LegBounces | Chapter15/bug_race.py:97-104 | each leg's dy is the drawn one, reversed exactly when the target row is not strictly between the top and the bottom; the total dy grows by it |
| BugRace.XsYsAppend | Chapter15/bug_race.py:118-121 | the x and y parts of joined steps are the parts of each, joined |
| BugRace.SumsAppend | Chapter15/bug_race.py:118-121 | appending steps adds their sums to the totals so far |
| BugRace.QueuedAddsUp | Chapter15/bug_race.py:92-121 | when every leg lasts at least one frame, the queued steps add up to the course: x parts to the total dx, y parts to the bounced total dy |
| BugRace.QueuedXsAddUp | Chapter15/bug_race.py:92-121 | the x half of `QueuedAddsUp` |
| BugRace.QueuedYsAddUp | Chapter15/bug_race.py:92-121 | the y half of `QueuedAddsUp` |
| BugRace.QueuedStep | Chapter15/bug_race.py:97-121 | one more leg adds its dx and its bounced dy to the queued sums |
| BugRace.LegAddsUp | Chapter15/bug_race.py:114-121 | a leg's steps add up to its dx and bounced dy |
| BugRace.ShortBeforeEveryLeg | Chapter15/bug_race.py:95-107 | dx is never negative, so a course short of the right edge was short of it before every earlier leg |
| BugRace.Racer.constructor | Chapter15/bug_race.py:79-90 | the racer starts at the left edge, vertically centred, with an empty queue |
| BugRace.Racer.QueueMove | Chapter15/bug_race.py:114-121 | `time // 50` steps are appended in order to the queue, unless there are none and the move is not zero, which raises a division error and queues nothing; the racer does not move |
| BugRace.Racer.NextMove | Chapter15/bug_race.py:109-112 | an empty queue changes nothing; otherwise the oldest step leaves the queue and moves the racer by it |
| BugRace.Racer.QueueLeg | Chapter15/bug_race.py:97-106 | one pass of the loop: the drawn dy bounces as `LegDy` says and the leg's steps join the queue, or the division error is raised |
| BugRace.Racer.PlotCourse | Chapter15/bug_race.py:92-107 | the legs used are queued in order. The total dx and the bounced total dy are those of the draws used. The loop finishes only once the course reaches the right edge, was short of it before every leg, and otherwise ends for want of draws or on the division error |
| Bananas.GreenIsAlwaysValid | Chapter04/banana.py:43-48 | both classes accept green, so `make_greenie` never raises |
| Bananas.EstimateCalories | Chapter04/banana.py:51-54 | one banana is 105 calories; never negative for a non-negative count, at least one per banana |
| Bananas.CaloriesAdd | Chapter04/banana.py:51-54 | the estimate of two bunches is the sum of the estimates, so with one banana's 105 it fixes every whole count |
| Bananas.Banana.constructor | Chapter04/banana.py:66-73 | a banana with a valid colour, unpeeled |
| Bananas.Banana.CanEat | Chapter04/banana.py:79-90 | False iff ripeness is demanded and the colour is neither 'yellow' nor 'brown spotted' |
| Bananas.Banana.Peel | Chapter04/banana.py:24-26 | the banana is peeled and keeps its colour |
| Bananas.Banana.SetColor | Chapter04/banana.py:28-34 | raises iff the colour is not in the class's list; a plain banana takes an accepted colour and keeps its own otherwise; a red banana never changes colour |
| Bananas.NewBanana | Chapter04/banana.py:66-73 | a new unpeeled banana iff the colour is in the class's list, otherwise the `ValueError` message |
| Bananas.MakeGreenie | Chapter04/banana.py:43-48 | a new, unpeeled green banana of the class |
| MainMenu.MainMenuFor | Chapter16/ABQ_Data_Entry/abq_data_entry/mainmenu.py:411-420 | Linux and freebsd7 give the Linux menu, Darwin the macOS menu, Windows the Windows menu, anything else the generic menu |
| MainMenu.Keys | Chapter16/ABQ_Data_Entry/abq_data_entry/mainmenu.py:226 | the keys of a table, in order |
| MainMenu.Events | Chapter16/ABQ_Data_Entry/abq_data_entry/mainmenu.py:226 | the events of a table, in order |
| MainMenu.WithoutMeaning | Chapter16/ABQ_Data_Entry/abq_data_entry/mainmenu.py:246 | deleting a key keeps exactly the entries with other keys, so the key is gone |
| MainMenu.BoundMeaning | Chapter16/ABQ_Data_Entry/abq_data_entry/mainmenu.py:224-227 | with distinct keys, every key of the table is bound to its event, and other bindings are kept |
| MainMenu.Root.constructor | Chapter16/ABQ_Data_Entry/abq_data_entry/mainmenu.py:189-196 | the root starts with no bindings |
| MainMenu.Root.BindAccelerators | Chapter16/ABQ_Data_Entry/abq_data_entry/mainmenu.py:224-227 | the bindings after binding each table entry, in order, to its event |
| MainMenu.MenuClasses.constructor | Chapter16/ABQ_Data_Entry/abq_data_entry/mainmenu.py:20-25 | the shared class table holds the generic keybinds |
| MainMenu.MenuClasses.Construct | Chapter16/ABQ_Data_Entry/abq_data_entry/mainmenu.py:245-247 | a Windows menu deletes '<Control-q>' from the table it shares with the generic menu, and raises `KeyError` once the key is gone; other menus leave the table alone; a menu that does not raise binds its table |
| MainMenu.MenuClasses.ConstructWithOwnTable | Chapter16/ABQ_Data_Entry/abq_data_entry/mainmenu.py:245-247 | the corrected construction: a Windows menu binds the generic table without quit, and the shared table is not changed |
| MainMenu.WindowsMenuTwice | Chapter16/ABQ_Data_Entry/abq_data_entry/mainmenu.py:245-247 | as written, a second Windows menu raises `KeyError: <Control-q>`, and a generic menu built afterwards has lost its quit shortcut |
| MainMenu.WindowsMenuTwiceWithOwnTable | Chapter16/ABQ_Data_Entry/abq_data_entry/mainmenu.py:245-247 | corrected, both Windows menus bind the three shortcuts other than quit, and the generic table is intact |
| MainMenu.WindowsKeybinds | Chapter16/ABQ_Data_Entry/abq_data_entry/mainmenu.py:20-25 | the Windows shortcuts are the generic ones without quit, in order |
| ProcessBackend.ProcessGetterFor | Chapter10/complex_cross_platform_demo/backend.py:4-14 | Linux gives the Linux getter; Darwin and freebsd7 the Mac/BSD getter; Windows the Windows getter; any other name raises 'No backend for OS'; the generic getter is never returned |
| ProcessBackend.ProcessList | Chapter10/complex_cross_platform_demo/backend.py:17-25 | a getter with an empty command raises `NotImplementedError` (exactly the generic one); the others run their non-empty command |
| ProcessBackend.DispatchedGetterLists | Chapter10/complex_cross_platform_demo/backend.py:4-37 | every getter the dispatcher hands out can list processes |
| RestService.MakeError | Chapter13/sample_rest_service/sample_rest_service.py:34-41 | the response has the status code, and a JSON body with exactly 'status' (that code) and 'message' |
| RestService.Service.constructor | Chapter13/sample_rest_service/sample_rest_service.py:27-28 | a new session is not logged in |
| RestService.Service.Auth | Chapter13/sample_rest_service/sample_rest_service.py:47-55 | 'test'/'test' logs the session in and succeeds; anything else answers 401 with 'The provided credentials were not accepted.' and changes nothing; files are untouched |
| RestService.Service.PutFile | Chapter13/sample_rest_service/sample_rest_service.py:57-66 | 403 without a session and nothing stored; with one, a missing file part or a name `save` cannot open (empty, '.', '..', NUL, a path into a sub-directory) fails with 500 and stores nothing, and any other upload stores its content under its name |
| RestService.Service.GetFile | Chapter13/sample_rest_service/sample_rest_service.py:68-81 | 403 without a session, 404 for an unknown name; otherwise the content length, and for GET also the content |
| RestService.UploadThenDownload | Chapter13/sample_rest_service/sample_rest_service.py:47-81 | a session that logs in and uploads succeeds iff the name can be saved; then it gets back the same content and its length, otherwise a 500 and an unchanged store |
| RestService.AnonymousRequests | Chapter13/sample_rest_service/sample_rest_service.py:57-81 | without logging in, nothing is stored and nothing is served |

## Left out

- Tk itself is not modelled. That covers widget drawing, geometry, styles, focus, the selection and the event loop. One kind of variable trace is modelled: the `_check_disable` trace that links Humidity, Light and Temperature to Equipment Fault. The form keeps these links, and every write to a disabling field in `reset` and `load_record` runs the trace (`Views.Traced`). An exception raised inside a trace callback is reported by Tk and does not reach the writer, so the model drops it. The form's other traces are not modelled: `_populate_current_seed_sample` and `_populate_tech_for_lab_check` query the database. The spinbox's minimum and maximum traces are left out too; `Widgets.LabelInput.SetMinimum` and `SetMaximum` are methods the caller invokes.
- `Views.DataRecordForm.constructor`: takes the inputs and links ready-made instead of building them from the field specifications. `Views.NewForm` fixes the field list and the Equipment Fault links and runs the first `reset`. The widgets themselves are still a parameter, since building them is Tk work.
- `Models.PyStr`, `Models.CellText` and `TkVars.Set`: a float is an exact decimal and is written positionally with at least one fraction digit. Python's `str(float)` differs in several ways the model does not follow. It writes `-0.0` where the model writes `0.0`. It switches to exponent form from 1e16 up and below 1e-4 (`1e+20`, `1e-05`). It rounds to at most 17 significant digits, where the model keeps every digit.
- `Common.Lower`: lower-cases the ASCII letters only; Python's `str.lower` also folds the rest of Unicode.
- `Models.SettingsModel`: `fields` is a class attribute in the source, shared by every instance, so `set` and `load` on one model are seen by all of them. In the model each instance owns its map.
- Message boxes, file dialogs and the login dialog are not modelled. Their answers are parameters (`dialogs`, `overwrite`, `download`, `filename`), and what the boxes display is not modelled.
- The csv module's text layer is not modelled. A file is a header plus row maps, so quoting, line endings and encodings are outside the model.
- JSON encoding of the settings file is not modelled, and neither is `SettingsModel.save`.
- The database is not modelled. `SQLModel` keeps only the query choice. Query execution, `get_lab_check` (given as the set `labChecks`) and the other queries are outside the model.
- Network calls are not modelled: `requests` sessions, the SFTP model and the upload thread. The thread's messages are the queue given to `CheckQueue`.
- `datetime.today()` is the parameter `today`, and the file name of the day's CSV file is derived from it.
- Random draws in the bug race are the `draws` parameter.
- Subprocess execution is not modelled. `ProcessList` returns the command instead of its output.
- The menus themselves are not modelled: menu building, icons, accelerator labels and styles.
- The Chapter 15 `views.py` is not part of this model. The Chapter 15 controller is modelled against the Chapter 14 form and record list. Nothing in the controller passes its row lists to the record list, so `_populate_recordlist` after a save is not modelled.
- `Views.RecordList.Populate`: the focus and selection of the first row after populating are not modelled.
- `Widgets.BoundText` (the text widget's two-way binding) and `_set_focus_update_var` are not modelled. The error-style toggling (`_toggle_error`, `_invalid`) is not modelled either.
- The `Radiobutton` branch of `LabelInput.__init__`, which builds one button per value, is not modelled.
- `Widgets.ResolveInput`: stops at the input class and its arguments. Building the input from them is covered by `Widgets.KindFor` only for the classes the form uses.
- `Widgets.DateKeyValid`: a digit is an ASCII digit. Python's `str.isdigit` also accepts every other Unicode decimal digit ('٢') and digit-like signs such as '²', which the model refuses at the digit positions.
- `Widgets.DateFocusOut`: `Widgets.ParseIsoDate` reads ASCII digits only, where `strptime`'s `%Y`, `%m` and `%d` match any Unicode decimal digit, so '٢٠٢٠-01-15' is a date in the source and 'Invalid date' in the model.
- `Widgets.SpinFocusOut`: through `Decimals.Parse`, only ASCII digits form a number; Python's `Decimal('١٢')` is 12, which the model reports as 'Invalid number string'. Typed keys are unaffected: the keystroke filter admits ASCII digits only, in the source as in the model.
- `Decimals.Parse`: reads the finite forms only (sign, digits, point, exponent). Python's `Decimal` also accepts 'Infinity', 'NaN', underscores and surrounding whitespace; the model refuses these.
- `TkVars.Get`: Tcl's integer syntax is taken as decimal digits only; hexadecimal and octal forms are not modelled.
- `Models.CSVModel.constructor`: the permission check on the file and the default file name are not modelled.
- `BugRace.Racer.constructor`: does not call `plot_course`; the caller does, with the draws.
- Canvas drawing in the bug race is not modelled: the racer image, `overlapping`, `execute_frame` and `declare_winner`.
- `Bananas.Banana.Peel`: the red banana's override only adds a printed line, which is not modelled. `__str__` is left out.
- `Bananas.EstimateCalories`: the count is an integer. The source multiplies whatever number it is given, so `estimate_calories(2.5)` is 262.5; fractional counts are not modelled.
- `Bananas.NewBanana`: the default colour argument ('green') is not a separate entry point; `MakeGreenie` covers the green banana.
- `RestService.Service.GetFile`: the content length is the number of characters, not of bytes on disk.
- `RestService.Service.PutFile`: the server's printed line is not modelled. The store is one session's view; Flask's per-client cookies are not modelled. The working directory is flat, so a name that `save` can open is taken as `RestService.Saveable`; sub-directories that exist, permissions, name-length limits and a full disk are not modelled.
- `Application.ShowLogin`: `_database_login` is the `accepts` parameter, since opening the database connection is outside the model.

## Findings

| source | as written | input that shows it | evidently intended | confidence | as-written member | corrected member |
|---|---|---|---|---|---|---|
| Chapter09/ABQ_Data_Entry/abq_data_entry/widgets.py:247-256 | after the character filter the code assumes the proposed text is '-', '.', '-.' or a valid decimal and calls `Decimal` on it | current '-1', '2' typed at index 0: the filter passes it, the text becomes '2-1' and `Decimal('2-1')` raises `InvalidOperation` inside the validation command | a proposal that is not a decimal is refused | not executed | Widgets.SpinKeyRaisesExample | Widgets.SpinKey |
| Chapter16/ABQ_Data_Entry/abq_data_entry/mainmenu.py:245-247 | `WindowsMainMenu.__init__` deletes '<Control-q>' from `self.keybinds`, the dict object that `GenericMainMenu` owns and every subclass without its own table shares | building a second Windows menu raises `KeyError`, and a generic or Linux menu built after a Windows one has lost its quit shortcut | the Windows menu works on its own copy of the table | not executed | MainMenu.WindowsMenuTwice | MainMenu.WindowsMenuTwiceWithOwnTable |
