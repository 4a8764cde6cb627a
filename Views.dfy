/** The data record form and the record list of ABQ Data Entry. The form
    keeps, for each field in schema order, its labelled input (kind,
    variable, error text, disabled flag); the list keeps the rows on show,
    the map from tree item ids to record keys, and the keys of the rows
    inserted and updated this session. */
module Views {
  import opened Common
  import opened TkVars
  import opened Widgets
  import opened Models

  // ---------------------------------------------------------------------
  // Reading the form
  // ---------------------------------------------------------------------

  /** The three messages Tk gives for a typed variable holding nothing. */
  const BlankValueErrors: seq<string> := [
    "expected integer but got \"\"",
    "expected floating-point number but got \"\"",
    "expected boolean value but got \"\""]

  /** `tclerror_is_blank_value`: the stripped message is one of the three
      blank-value messages. */
  predicate TclErrorIsBlankValue(message: string) {
    Strip(message) in BlankValueErrors
  }

  /** Reading one variable inside `get`: a Tcl error about a blank value
      becomes `None`; any other error is raised again. */
  function ReadField(v: TkVar): (r: Result<PyValue, VarError>)
    ensures Get(v).Ok? ==> r == Get(v)
    ensures r.Err? ==> r == Get(v)
  {
    match Get(v)
    case Ok(x) => Ok(x)
    case Err(e) =>
      if e.TclError? && TclErrorIsBlankValue(e.message) then Ok(Null) else Err(e)
  }

  lemma StripUnpadded(s: string)
    requires s != [] && !IsSpace(s[0]) && !IsSpace(s[|s| - 1])
    ensures Strip(s) == s
  {
    assert TrimLeft(s) == s;
  }

  /** Tk's message for a number variable that does not read is taken for a
      blank value exactly when the variable is empty. */
  lemma BlankMessageOnlyWhenEmpty(raw: string)
    ensures TclErrorIsBlankValue(ExpectedFloat(raw)) <==> raw == ""
  {
    var m := ExpectedFloat(raw);
    assert m == "expected floating-point number but got " + ("\"" + raw + "\"");
    StripUnpadded(m);
    assert m[9] == 'f';
    assert BlankValueErrors[0][9] == 'i' && BlankValueErrors[2][9] == 'b';
    if m == BlankValueErrors[1] {
      assert |m| == 41 + |raw|;
    }
  }

  /** `get` turns a read into `None` exactly for a blank integer or double
      variable; a blank boolean variable still raises its `ValueError`. */
  lemma ReadFieldNone(v: TkVar)
    ensures ReadField(v) == Ok(Null) <==> v.vtype in {IntVar, DoubleVar} && v.raw == ""
    ensures v.vtype == BooleanVar && v.raw == "" ==> ReadField(v) == Err(ValueError(BadBooleanLiteral))
  {
    BlankRead(v.vtype);
    if v.vtype in {IntVar, DoubleVar} && Get(v).Err? {
      BlankMessageOnlyWhenEmpty(v.raw);
    }
  }

  /** After the clearing step of `reset`, `get` reads '' for a string
      variable, `None` for a number variable and False for a boolean one. */
  lemma ReadCleared(v: TkVar)
    ensures ReadField(Cleared(v)) ==
      match v.vtype
      case StringVar => Ok(Str(""))
      case BooleanVar => Ok(Bool(false))
      case _ => Ok(Null)
  {
    ClearedRead(v);
    ReadFieldNone(Cleared(v));
    BlankMessageOnlyWhenEmpty("");
  }

  // ---------------------------------------------------------------------
  // Helpers on sequences and inputs
  // ---------------------------------------------------------------------

  /** `list.index(x)`: the first position of `x`. */
  function IndexOf<T(==)>(s: seq<T>, x: T): (r: nat)
    requires x in s
    ensures r < |s| && s[r] == x
    ensures forall j :: 0 <= j < r ==> s[j] != x
  {
    if s[0] == x then 0 else 1 + IndexOf(s[1..], x)
  }

  /** An input after `trigger_focusout_validation` when it has one; inputs
      without it (the text box, the checkbutton) are left as they are. */
  function AfterFocusout(inp: Input): Input {
    if HasTrigger(inp.kind) then TriggerFocusout(inp).1 else inp
  }

  /** The error a field reports after focus-out validation: the check of
      its current text for an enabled validated input, nothing for a
      disabled one, the required-value check for a radio group, and the
      old error text for an input without validation. */
  lemma AfterFocusoutError(inp: Input)
    ensures AfterFocusout(inp) == inp.(error := AfterFocusout(inp).error)
    ensures AfterFocusout(inp).error ==
      if IsValidated(inp.kind) && inp.disabled then ""
      else if IsValidated(inp.kind) then FocusOutCheck(inp.kind, inp.variable.raw).error
      else if inp.kind.RadioGroupInput? then RequiredFocusOut(inp.variable.raw).error
      else inp.error
  {
    if HasTrigger(inp.kind) {
      TriggerFocusoutError(inp);
    }
  }

  /** The (field, error) pairs of the inputs whose error text is not
      empty, in field order. */
  function ErrorsIn(keys: seq<string>, inputs: map<string, Input>): (r: seq<(string, string)>)
    requires forall k :: k in keys ==> k in inputs
    ensures forall p :: p in r <==> p.0 in keys && inputs[p.0].error != "" && p.1 == inputs[p.0].error
    ensures |r| <= |keys|
  {
    if keys == [] then []
    else
      var k := keys[|keys| - 1];
      ErrorsIn(keys[..|keys| - 1], inputs) + (if inputs[k].error != "" then [(k, inputs[k].error)] else [])
  }

  /** The errors reported for some fields depend only on those fields' inputs. */
  lemma {:induction false} ErrorsInFrame(keys: seq<string>, a: map<string, Input>, b: map<string, Input>)
    requires forall k :: k in keys ==> k in a && k in b && a[k] == b[k]
    ensures ErrorsIn(keys, a) == ErrorsIn(keys, b)
  {
    if keys != [] {
      ErrorsInFrame(keys[..|keys| - 1], a, b);
    }
  }

  /** `data.get(key, '')`. */
  function DataGet(data: Record, key: string): PyValue {
    if key in data then data[key] else Str("")
  }

  /** Loading one field: the variable is set (which can raise), then
      focus-out validation runs where the input has it. */
  function LoadField(inp: Input, value: PyValue): (r: Result<Input, VarError>)
    ensures r.Ok? <==> Set(inp.variable, value).Ok?
    ensures r.Ok? ==> r.value == AfterFocusout(inp.(variable := Set(inp.variable, value).value))
  {
    match Set(inp.variable, value)
    case Err(e) => Err(e)
    case Ok(v) => Ok(AfterFocusout(inp.(variable := v)))
  }

  /** The title `load_record` gives an existing record. */
  function RecordTitle(k: RowKey): string {
    "Record for Lab " + PyStr(k.lab) + ", Plot " + PyStr(k.plot) + " at " + PyStr(k.date) + " " + PyStr(k.time)
  }

  const NewRecordTitle := "New Record"

  /** What `reset` and `load_record` can raise. */
  datatype FormError =
    | PlotValuesEmpty       // IndexError from `plot_values[-1]`
    | PlotNotListed         // ValueError from `plot_values.index(plot)`
    | VarFailed(e: VarError)

  /** Whether `reset` carries the sheet over: 'autofill sheet data' is on
      and the old plot is neither '' nor the last plot value. (The source
      also excludes `0`, which a string never equals.) */
  predicate CarryOver(autofillSheet: bool, plot: string, plotValues: seq<string>) {
    autofillSheet && |plotValues| > 0 && plot != "" && plot != plotValues[|plotValues| - 1]
  }

  /** When the sheet is carried over and the old plot is listed, the next
      plot value exists. */
  lemma {:induction false} NextPlotExists(plot: string, plotValues: seq<string>)
    requires CarryOver(true, plot, plotValues) && plot in plotValues
    ensures IndexOf(plotValues, plot) + 1 < |plotValues|
  {
    var i := IndexOf(plotValues, plot);
    assert plotValues[i] == plot != plotValues[|plotValues| - 1];
  }

  /** The plot value after `plot` in the plot list. */
  function NextPlot(plot: string, plotValues: seq<string>): (r: string)
    requires CarryOver(true, plot, plotValues) && plot in plotValues
    ensures r in plotValues
  {
    NextPlotExists(plot, plotValues);
    plotValues[IndexOf(plotValues, plot) + 1]
  }

  // ---------------------------------------------------------------------
  // DataRecordForm
  // ---------------------------------------------------------------------

  /** A field of the form that holds a string variable. */
  predicate StringField(inputs: map<string, Input>, key: string) {
    key in inputs && inputs[key].variable.vtype == StringVar
  }

  /** One input per field. */
  ghost predicate Covers(keys: seq<string>, inputs: map<string, Input>) {
    forall k :: k in inputs <==> k in keys
  }

  /** The sheet fields are string variables and the Plot input is a
      combobox, whose values are the plot list. */
  predicate SheetShape(inputs: map<string, Input>) {
    SheetFieldsIn(inputs) && inputs["Plot"].kind.ComboboxInput?
  }

  const EquipmentFault := "Equipment Fault"

  /** The disabling links the form sets up: Humidity, Light and
      Temperature are built with Equipment Fault's variable as their
      `disable_var`. */
  const FaultLinks: map<string, string> :=
    map["Humidity" := EquipmentFault, "Light" := EquipmentFault, "Temperature" := EquipmentFault]

  /** Disabling links, from a linked field to the field whose variable
      disables it: both are fields of the form, the disabling field holds
      a BooleanVar outside the sheet, and it is not itself linked. */
  predicate LinksShape(inputs: map<string, Input>, links: map<string, string>) {
    forall k :: k in links ==>
      && k in inputs && links[k] in inputs && links[k] !in links && !IsSheetField(links[k])
      && inputs[links[k]].variable.vtype == BooleanVar
  }

  /** The shape of the form: one input per field, each field once, the
      sheet fields as `SheetShape` says and the links as `LinksShape` says. */
  ghost predicate FormShape(keys: seq<string>, inputs: map<string, Input>, links: map<string, string>) {
    Distinct(keys) && Covers(keys, inputs) && SheetShape(inputs) && LinksShape(inputs, links)
  }

  /** Two forms with the same inputs but for the variables' values, the
      error texts and the disabled flags. */
  predicate SameWidgets(a: map<string, Input>, b: map<string, Input>) {
    && a.Keys == b.Keys
    && forall k :: k in a ==> b[k].kind == a[k].kind && b[k].variable.vtype == a[k].variable.vtype
  }

  lemma SameWidgetsShape(keys: seq<string>, links: map<string, string>, a: map<string, Input>, b: map<string, Input>)
    requires FormShape(keys, a, links) && SameWidgets(a, b)
    ensures FormShape(keys, b, links)
  {
  }

  /** The traces a write to field `f` fires: each input that `f` disables
      runs `_check_disable` against `f`'s variable. */
  function Traced(inputs: map<string, Input>, links: map<string, string>, f: string): (r: map<string, Input>)
    requires f in inputs
    ensures r.Keys == inputs.Keys
  {
    map k | k in inputs :: if k in links && links[k] == f then DisableChecked(inputs[k], inputs[f].variable) else inputs[k]
  }

  /** The loop of `get`: each field read with `ReadField`, in field
      order; the first error is raised. */
  method ReadFields(keys: seq<string>, inputs: map<string, Input>) returns (r: Result<map<string, PyValue>, VarError>)
    requires Covers(keys, inputs)
    ensures r.Ok? <==> forall k :: k in inputs ==> ReadField(inputs[k].variable).Ok?
    ensures r.Ok? ==> r.value.Keys == inputs.Keys
    ensures r.Ok? ==> forall k :: k in inputs ==> Ok(r.value[k]) == ReadField(inputs[k].variable)
    ensures r.Err? ==> exists i :: 0 <= i < |keys| && Err(r.error) == ReadField(inputs[keys[i]].variable)
                                   && forall j :: 0 <= j < i ==> ReadField(inputs[keys[j]].variable).Ok?
  {
    var data, done, err := StoreEach(keys, inputs, map[], (k, inp: Input) => ReadField(inp.variable));
    if err.Some? {
      return Err(err.value);
    }
    assert keys[..done] == keys;
    forall k | k in inputs ensures Ok(data[k]) == ReadField(inputs[k].variable) {
      var j :| 0 <= j < |keys| && keys[j] == k;
    }
    r := Ok(data);
  }

  /** Field `f` can be cleared: it is a field of the form, and each input
      it disables is another input, with `f` holding a BooleanVar. */
  predicate Clearable(inputs: map<string, Input>, links: map<string, string>, f: string) {
    f in inputs && forall k :: k in links && links[k] == f ==> inputs[f].variable.vtype == BooleanVar && k != f
  }

  /** One pass of the clearing loop of `reset` on field `f`: its variable
      is cleared, and the inputs it disables are enabled (the effect of the
      traces the write fires, as `ClearFieldTraced` shows). */
  function ClearField(inputs: map<string, Input>, links: map<string, string>, f: string): map<string, Input> {
    map k | k in inputs ::
      if k == f then inputs[k].(variable := Cleared(inputs[k].variable))
      else if k in links && links[k] == f then inputs[k].(disabled := false)
      else inputs[k]
  }

  /** Clearing a field is writing '' (False for a BooleanVar) into its
      variable and then running the traces that write fires: each input it
      disables reads False from it and is enabled. */
  lemma ClearFieldTraced(inputs: map<string, Input>, links: map<string, string>, f: string)
    requires Clearable(inputs, links, f)
    ensures ClearField(inputs, links, f) == Traced(inputs[f := inputs[f].(variable := Cleared(inputs[f].variable))], links, f)
  {
    ClearedRead(inputs[f].variable);
  }

  /** The clearing loop of `reset` over `keys`, starting from the form `m`. */
  function ClearFrom(keys: seq<string>, m: map<string, Input>, links: map<string, string>): map<string, Input>
    decreases |keys|
  {
    if keys == [] then m else ClearFrom(keys[1..], ClearField(m, links, keys[0]), links)
  }

  /** The form `m` is `inputs` after the clearing loop has run over the
      first `i` fields: those are cleared, and the inputs they disable are
      enabled. */
  ghost predicate ClearedUpTo(keys: seq<string>, i: nat, inputs: map<string, Input>, m: map<string, Input>,
                        links: map<string, string>)
    requires i <= |keys|
  {
    && (forall k :: k in m <==> k in inputs)
    && forall k :: k in m ==>
         m[k] == inputs[k].(variable := if k in keys[..i] then Cleared(inputs[k].variable) else inputs[k].variable,
                            disabled := if k in links && links[k] in keys[..i] then false else inputs[k].disabled)
  }

  /** One pass of the clearing loop moves `ClearedUpTo` one field on. */
  lemma ClearStep(keys: seq<string>, i: nat, inputs: map<string, Input>, m: map<string, Input>, links: map<string, string>)
    requires Distinct(keys) && Covers(keys, inputs) && LinksShape(inputs, links) && i < |keys|
    requires ClearedUpTo(keys, i, inputs, m, links)
    ensures Clearable(m, links, keys[i])
    ensures ClearedUpTo(keys, i + 1, inputs, ClearField(m, links, keys[i]), links)
  {
    var f := keys[i];
    assert f !in keys[..i];
    assert keys[..i + 1] == keys[..i] + [f];
  }

  /** A form cleared up to the last field is the cleared form. */
  lemma ClearedUpToAll(keys: seq<string>, inputs: map<string, Input>, m: map<string, Input>, links: map<string, string>)
    requires Covers(keys, inputs) && LinksShape(inputs, links) && ClearedUpTo(keys, |keys|, inputs, m, links)
    ensures m == ClearedForm(inputs, links)
  {
    assert keys[..|keys|] == keys;
    forall k | k in m ensures m[k] == ClearedForm(inputs, links)[k] {
    }
  }

  /** Clearing from position `i` on, over a form cleared up to `i`, ends
      with every field cleared and every linked input enabled. */
  lemma {:induction false} ClearFromMeaning(keys: seq<string>, i: nat, inputs: map<string, Input>, m: map<string, Input>,
                                            links: map<string, string>)
    requires Distinct(keys) && Covers(keys, inputs) && LinksShape(inputs, links) && i <= |keys|
    requires ClearedUpTo(keys, i, inputs, m, links)
    ensures ClearFrom(keys[i..], m, links) == ClearedForm(inputs, links)
    decreases |keys| - i
  {
    if i == |keys| {
      ClearedUpToAll(keys, inputs, m, links);
    } else {
      ClearStep(keys, i, inputs, m, links);
      ClearFromMeaning(keys, i + 1, inputs, ClearField(m, links, keys[i]), links);
      assert keys[i..][1..] == keys[i + 1..];
    }
  }

  /** The clearing loop of `reset`: every variable is cleared, in field
      order. Writing False into a disabling field fires its traces, which
      enable the inputs it disables; nothing else changes. */
  method ClearInputs(keys: seq<string>, inputs: map<string, Input>, links: map<string, string>)
    returns (out: map<string, Input>)
    requires Distinct(keys) && Covers(keys, inputs) && LinksShape(inputs, links)
    ensures out == ClearedForm(inputs, links)
  {
    ClearFromMeaning(keys, 0, inputs, inputs, links);
    assert keys[0..] == keys;
    out := inputs;
    var i := 0;
    while i < |keys|
      invariant i <= |keys|
      invariant ClearFrom(keys[i..], out, links) == ClearFrom(keys, inputs, links)
    {
      assert keys[i..][1..] == keys[i + 1..];
      out := ClearField(out, links, keys[i]);
      i := i + 1;
    }
  }

  /** The texts of the five sheet fields. */
  datatype Sheet = Sheet(date: string, lab: string, time: string, technician: string, plot: string)

  predicate IsSheetField(k: string) {
    k == "Date" || k == "Lab" || k == "Time" || k == "Technician" || k == "Plot"
  }

  predicate SheetFieldsIn(inputs: map<string, Input>) {
    && StringField(inputs, "Date") && StringField(inputs, "Lab") && StringField(inputs, "Time")
    && StringField(inputs, "Technician") && StringField(inputs, "Plot")
  }

  function SheetOf(inputs: map<string, Input>): Sheet
    requires SheetFieldsIn(inputs)
  {
    Sheet(inputs["Date"].variable.raw, inputs["Lab"].variable.raw, inputs["Time"].variable.raw,
          inputs["Technician"].variable.raw, inputs["Plot"].variable.raw)
  }

  /** The sheet `reset` leaves behind: the Date is today's date with
      'autofill date' and '' otherwise; when the sheet is carried over,
      Lab, Time and Technician keep their old values and Plot takes the
      plot value after the old one (or stays '' when the old plot is not
      listed); otherwise all four are ''. */
  function SheetAfterReset(before: Sheet, plotValues: seq<string>, autofillDate: bool, autofillSheet: bool, today: Date): Sheet
    requires ValidDate(today)
  {
    var carry := CarryOver(autofillSheet, before.plot, plotValues);
    Sheet(if autofillDate then IsoText(today) else "",
          if carry then before.lab else "",
          if carry then before.time else "",
          if carry then before.technician else "",
          if carry && before.plot in plotValues then NextPlot(before.plot, plotValues) else "")
  }

  /** What `reset` raises: an empty plot list whenever the sheet data
      setting is on, and an old plot missing from the list when the sheet
      is carried over. */
  function ResetRaises(plot: string, plotValues: seq<string>, autofillSheet: bool): Option<FormError> {
    if autofillSheet && plotValues == [] then Some(PlotValuesEmpty)
    else if CarryOver(autofillSheet, plot, plotValues) && plot !in plotValues then Some(PlotNotListed)
    else None
  }

  /** What `reset` leaves behind, against the form it started from: every
      variable but the sheet fields' is cleared (False for a boolean, ''
      for the rest), the sheet is `SheetAfterReset`, every linked input is
      enabled, and nothing else changes. */
  predicate ResetFrom(before: map<string, Input>, after: map<string, Input>, links: map<string, string>,
                      autofillDate: bool, autofillSheet: bool, today: Date, raised: Option<FormError>)
    requires ValidDate(today) && SheetFieldsIn(before) && before["Plot"].kind.ComboboxInput?
  {
    var values := before["Plot"].kind.values;
    && SheetFieldsIn(after)
    && after.Keys == before.Keys
    && (forall k :: k in after ==>
          after[k] == before[k].(variable := after[k].variable,
                                 disabled := if k in links then false else before[k].disabled))
    && (forall k :: k in after && !IsSheetField(k) ==> after[k].variable == Cleared(before[k].variable))
    && SheetOf(after) == SheetAfterReset(SheetOf(before), values, autofillDate, autofillSheet, today)
    && raised == ResetRaises(before["Plot"].variable.raw, values, autofillSheet)
  }

  /** The form with the sheet fields set to the texts of `sheet`. */
  function WithSheet(inputs: map<string, Input>, sheet: Sheet): (r: map<string, Input>)
    requires SheetFieldsIn(inputs)
    ensures SheetFieldsIn(r) && SheetOf(r) == sheet && r.Keys == inputs.Keys
    ensures forall k :: k in r ==> r[k] == inputs[k].(variable := r[k].variable)
    ensures forall k :: k in r && !IsSheetField(k) ==> r[k] == inputs[k]
  {
    inputs["Date" := inputs["Date"].(variable := TkVar(StringVar, sheet.date))]
          ["Lab" := inputs["Lab"].(variable := TkVar(StringVar, sheet.lab))]
          ["Time" := inputs["Time"].(variable := TkVar(StringVar, sheet.time))]
          ["Technician" := inputs["Technician"].(variable := TkVar(StringVar, sheet.technician))]
          ["Plot" := inputs["Plot"].(variable := TkVar(StringVar, sheet.plot))]
  }

  /** The form with every variable cleared and every linked input enabled. */
  function ClearedForm(inputs: map<string, Input>, links: map<string, string>): (r: map<string, Input>)
    ensures r.Keys == inputs.Keys
    ensures forall k :: k in r ==> r[k].variable == Cleared(inputs[k].variable)
    ensures forall k :: k in r ==> r[k].disabled == (k !in links && inputs[k].disabled)
  {
    map k | k in inputs ::
      inputs[k].(variable := Cleared(inputs[k].variable), disabled := if k in links then false else inputs[k].disabled)
  }

  /** The form and the exception `reset` leaves: the cleared form with
      the sheet `SheetAfterReset`, and `ResetRaises`. */
  function ResetForm(inputs: map<string, Input>, links: map<string, string>,
                     autofillDate: bool, autofillSheet: bool, today: Date)
    : (r: (map<string, Input>, Option<FormError>))
    requires SheetShape(inputs) && ValidDate(today)
    ensures r.0.Keys == inputs.Keys && SheetShape(r.0)
  {
    var values := inputs["Plot"].kind.values;
    (WithSheet(ClearedForm(inputs, links), SheetAfterReset(SheetOf(inputs), values, autofillDate, autofillSheet, today)),
     ResetRaises(inputs["Plot"].variable.raw, values, autofillSheet))
  }

  /** `ResetForm` is the form `ResetFrom` describes. */
  lemma ResetOutcome(inputs: map<string, Input>, links: map<string, string>,
                     autofillDate: bool, autofillSheet: bool, today: Date)
    requires SheetShape(inputs) && ValidDate(today)
    ensures var (after, raised) := ResetForm(inputs, links, autofillDate, autofillSheet, today);
            SheetShape(after) && ResetFrom(inputs, after, links, autofillDate, autofillSheet, today, raised)
  {
  }

  /** Clearing keeps every input's widget and variable type. */
  lemma ClearedKeepsWidgets(inputs: map<string, Input>, links: map<string, string>)
    ensures SameWidgets(inputs, ClearedForm(inputs, links))
  {
  }

  /** Writing the sheet texts keeps every input's widget and variable type. */
  lemma WithSheetKeepsWidgets(inputs: map<string, Input>, sheet: Sheet)
    requires SheetFieldsIn(inputs)
    ensures SameWidgets(inputs, WithSheet(inputs, sheet))
  {
  }

  /** Resetting keeps the shape of the form. */
  lemma ResetKeepsShape(keys: seq<string>, inputs: map<string, Input>, links: map<string, string>,
                        autofillDate: bool, autofillSheet: bool, today: Date)
    requires FormShape(keys, inputs, links) && ValidDate(today)
    ensures FormShape(keys, ResetForm(inputs, links, autofillDate, autofillSheet, today).0, links)
  {
    var cleared := ClearedForm(inputs, links);
    ClearedKeepsWidgets(inputs, links);
    SameWidgetsShape(keys, links, inputs, cleared);
    var sheet := SheetAfterReset(SheetOf(inputs), inputs["Plot"].kind.values, autofillDate, autofillSheet, today);
    WithSheetKeepsWidgets(cleared, sheet);
    SameWidgetsShape(keys, links, cleared, WithSheet(cleared, sheet));
  }

  /** The branches of `reset` that fill the sheet fields, over the sheet
      `old_` held before the clearing loop; every text starts out ''. */
  method ResetSheet(old_: Sheet, plotValues: seq<string>, autofillDate: bool, autofillSheet: bool, today: Date)
    returns (sheet: Sheet, raised: Option<FormError>)
    requires ValidDate(today)
    ensures sheet == SheetAfterReset(old_, plotValues, autofillDate, autofillSheet, today)
    ensures raised == ResetRaises(old_.plot, plotValues, autofillSheet)
  {
    sheet := Sheet("", "", "", "", "");
    if autofillDate {
      sheet := sheet.(date := IsoText(today));
    }
    raised := None;
    if autofillSheet {
      if plotValues == [] {
        raised := Some(PlotValuesEmpty);
      } else if old_.plot != "" && old_.plot != plotValues[|plotValues| - 1] {
        sheet := sheet.(lab := old_.lab, time := old_.time, technician := old_.technician);
        if old_.plot !in plotValues {
          raised := Some(PlotNotListed);
        } else {
          sheet := sheet.(plot := NextPlot(old_.plot, plotValues));
        }
      }
    }
  }

  /** `reset`, with the two settings and today's date as parameters. The
      texts the method sets in the sheet fields are gathered in a `Sheet`
      and written once the branches are done; the fields are distinct and
      none of them disables another, so the order of the writes does not
      matter. */
  method ResetInputs(keys: seq<string>, inputs: map<string, Input>, links: map<string, string>,
                     autofillDate: bool, autofillSheet: bool, today: Date)
    returns (out: map<string, Input>, raised: Option<FormError>)
    requires FormShape(keys, inputs, links) && ValidDate(today)
    ensures (out, raised) == ResetForm(inputs, links, autofillDate, autofillSheet, today)
    ensures FormShape(keys, out, links)
  {
    var old_ := SheetOf(inputs);
    var cleared := ClearInputs(keys, inputs, links);
    var sheet;
    sheet, raised := ResetSheet(old_, inputs["Plot"].kind.values, autofillDate, autofillSheet, today);
    out := WithSheet(cleared, sheet);
    ResetKeepsShape(keys, inputs, links, autofillDate, autofillSheet, today);
  }

  /** The form after `get_errors`: every input focus-out validated. */
  function Focused(inputs: map<string, Input>): (r: map<string, Input>)
    ensures r.Keys == inputs.Keys
    ensures forall k :: k in r ==> r[k] == AfterFocusout(inputs[k])
  {
    map k | k in inputs :: AfterFocusout(inputs[k])
  }

  /** Focus-out validation keeps each variable. */
  lemma FocusedVariable(inputs: map<string, Input>, k: string)
    requires k in inputs
    ensures Focused(inputs)[k].variable == inputs[k].variable
  {
    AfterFocusoutError(inputs[k]);
  }

  /** The loop of `get_errors`: focus-out validation runs on every input
      that has it, then every field whose error text is not empty is
      reported with that text, in field order. */
  method CollectErrors(keys: seq<string>, inputs: map<string, Input>)
    returns (out: map<string, Input>, errors: seq<(string, string)>)
    requires Covers(keys, inputs)
    ensures out == Focused(inputs)
    ensures errors == ErrorsIn(keys, out)
  {
    var done: nat, err: Option<()>;
    out, done, err := StoreEach(keys, inputs, inputs, (k, inp: Input) => Ok(AfterFocusout(inp)));
    assert keys[..done] == keys;
    forall k | k in out ensures out[k] == AfterFocusout(inputs[k]) {
      var j :| 0 <= j < |keys| && keys[j] == k;
    }
    errors := ErrorsIn(keys, out);
  }

  /** One pass of the `load_record` loop on field `k`: the variable is set
      and validated as `LoadField` says, and the write fires the traces of
      the inputs `k` disables. (The traces run before `k`'s own focus-out
      validation; they change other inputs only, so the two commute.) */
  function LoadStep(inputs: map<string, Input>, links: map<string, string>, k: string, value: PyValue)
    : (r: Result<map<string, Input>, VarError>)
    requires k in inputs
    ensures r.Ok? <==> Set(inputs[k].variable, value).Ok?
    ensures r.Ok? ==> r.value.Keys == inputs.Keys
  {
    match LoadField(inputs[k], value)
    case Err(e) => Err(e)
    case Ok(inp) => Ok(Traced(inputs[k := inp], links, k))
  }

  /** A load step keeps the shape of the form. */
  lemma LoadStepShape(inputs: map<string, Input>, links: map<string, string>, k: string, value: PyValue)
    requires k in inputs && LoadStep(inputs, links, k, value).Ok?
    ensures SameWidgets(inputs, LoadStep(inputs, links, k, value).value)
  {
    AfterFocusoutError(inputs[k].(variable := Set(inputs[k].variable, value).value));
  }

  /** The `load_record` loop over `keys`, from `inputs`: the form it
      leaves, the number of fields loaded, and the error of the field that
      stopped it. */
  function Loaded(keys: seq<string>, inputs: map<string, Input>, links: map<string, string>, data: Record)
    : (r: (map<string, Input>, nat, Option<VarError>))
    requires forall k :: k in keys ==> k in inputs
    ensures r.0.Keys == inputs.Keys && r.1 <= |keys| && (r.2.None? <==> r.1 == |keys|)
    decreases |keys|
  {
    if keys == [] then (inputs, 0, None)
    else match LoadStep(inputs, links, keys[0], DataGet(data, keys[0]))
      case Err(e) => (inputs, 0, Some(e))
      case Ok(next) =>
        var r := Loaded(keys[1..], next, links, data);
        (r.0, r.1 + 1, r.2)
  }

  /** A load keeps the shape of the form. */
  lemma {:induction false} LoadedShape(keys: seq<string>, inputs: map<string, Input>, links: map<string, string>,
                                       data: Record)
    requires forall k :: k in keys ==> k in inputs
    ensures SameWidgets(inputs, Loaded(keys, inputs, links, data).0)
  {
    if keys != [] && LoadStep(inputs, links, keys[0], DataGet(data, keys[0])).Ok? {
      var next := LoadStep(inputs, links, keys[0], DataGet(data, keys[0])).value;
      LoadStepShape(inputs, links, keys[0], DataGet(data, keys[0]));
      LoadedShape(keys[1..], next, links, data);
    }
  }

  /** An input after its field is loaded, or as it was when setting raises. */
  function LoadedInput(inp: Input, value: PyValue): Input {
    match LoadField(inp, value)
    case Ok(x) => x
    case Err(_) => inp
  }

  /** What each input holds after a load over `keys` that raised nothing:
      an input that no loaded field disables is loaded when its field is
      in `keys` and kept otherwise; an input whose disabling field is
      loaded runs `_check_disable` against that field's new variable,
      after its own load when it comes first in `keys` and before it when
      it comes later. */
  function Expected(keys: seq<string>, inputs: map<string, Input>, links: map<string, string>, data: Record, k: string)
    : Input
    requires k in inputs && (k in links ==> links[k] in inputs)
  {
    var own := if k in keys then LoadedInput(inputs[k], DataGet(data, k)) else inputs[k];
    if k in links && links[k] in keys then
      var dv := LoadedInput(inputs[links[k]], DataGet(data, links[k])).variable;
      if k in keys && IndexOf(keys, k) > IndexOf(keys, links[k]) then
        LoadedInput(DisableChecked(inputs[k], dv), DataGet(data, k))
      else DisableChecked(own, dv)
    else own
  }

  /** What a load step leaves in each input: the loaded field is loaded,
      the inputs it disables have run `_check_disable` against its new
      variable, and every other input is unchanged. */
  lemma LoadStepAt(inputs: map<string, Input>, links: map<string, string>, k0: string, value: PyValue, j: string)
    requires k0 in inputs && j in inputs && LoadStep(inputs, links, k0, value).Ok?
    requires k0 in links ==> links[k0] != k0
    ensures LoadStep(inputs, links, k0, value).value[j] ==
              if j == k0 then LoadedInput(inputs[k0], value)
              else if j in links && links[j] == k0 then DisableChecked(inputs[j], LoadedInput(inputs[k0], value).variable)
              else inputs[j]
  {
  }

  /** The fields after the first are the fields other than the first. */
  lemma TailMembers(keys: seq<string>)
    requires keys != [] && Distinct(keys)
    ensures forall j :: j in keys[1..] <==> j in keys && j != keys[0]
  {
    forall j ensures j in keys[1..] <==> j in keys && j != keys[0] {
      if j in keys && j != keys[0] {
        var i :| 0 <= i < |keys| && keys[i] == j;
        assert keys[1..][i - 1] == j;
      }
    }
  }

  /** `ExpectedShift` for the field the step loads. */
  lemma ExpectedShiftOwn(keys: seq<string>, inputs: map<string, Input>, links: map<string, string>, data: Record,
                         next: map<string, Input>, k: string)
    requires keys != [] && k == keys[0] && k !in keys[1..] && k in inputs && k in next
    requires next[k] == LoadedInput(inputs[k], DataGet(data, k))
    requires k in links ==> && links[k] in inputs && links[k] in next && next[links[k]] == inputs[links[k]]
                            && (links[k] in keys[1..] <==> links[k] in keys) && links[k] != k
    ensures Expected(keys[1..], next, links, data, k) == Expected(keys, inputs, links, data, k)
  {
  }

  /** `ExpectedShift` for an input the loaded field disables. */
  lemma ExpectedShiftLinked(keys: seq<string>, inputs: map<string, Input>, links: map<string, string>, data: Record,
                            next: map<string, Input>, k: string)
    requires keys != [] && k != keys[0] && k in links && links[k] == keys[0] && keys[0] !in keys[1..]
    requires k in inputs && keys[0] in inputs && k in next && keys[0] in next
    requires next[k] == DisableChecked(inputs[k], LoadedInput(inputs[keys[0]], DataGet(data, keys[0])).variable)
    requires k in keys[1..] <==> k in keys
    ensures Expected(keys[1..], next, links, data, k) == Expected(keys, inputs, links, data, k)
  {
    if k in keys {
      assert IndexOf(keys, k) > 0 == IndexOf(keys, keys[0]);
    }
  }

  /** `ExpectedShift` for an input the loaded field neither is nor disables. */
  lemma ExpectedShiftOther(keys: seq<string>, inputs: map<string, Input>, links: map<string, string>, data: Record,
                           next: map<string, Input>, k: string)
    requires keys != [] && k != keys[0] && !(k in links && links[k] == keys[0])
    requires k in inputs && k in next && next[k] == inputs[k] && (k in keys[1..] <==> k in keys)
    requires k in links ==> && links[k] in inputs && links[k] in next && next[links[k]] == inputs[links[k]]
                            && (links[k] in keys[1..] <==> links[k] in keys)
    ensures Expected(keys[1..], next, links, data, k) == Expected(keys, inputs, links, data, k)
  {
    if k in links && k in keys && links[k] in keys {
      assert IndexOf(keys, links[k]) == 1 + IndexOf(keys[1..], links[k]);
      assert IndexOf(keys, k) == 1 + IndexOf(keys[1..], k);
    }
  }

  /** One step of `Loaded` keeps `Expected` of the rest equal to `Expected`
      of the whole. */
  lemma ExpectedShift(keys: seq<string>, inputs: map<string, Input>, links: map<string, string>, data: Record,
                      next: map<string, Input>, k: string)
    requires keys != [] && Distinct(keys) && (forall j :: j in keys ==> j in inputs) && LinksShape(inputs, links)
    requires LoadStep(inputs, links, keys[0], DataGet(data, keys[0])) == Ok(next)
    requires k in inputs
    ensures LinksShape(next, links)
    ensures Expected(keys[1..], next, links, data, k) == Expected(keys, inputs, links, data, k)
  {
    var k0 := keys[0];
    var value := DataGet(data, k0);
    LoadStepShape(inputs, links, k0, value);
    TailMembers(keys);
    LoadStepAt(inputs, links, k0, value, k);
    if k in links {
      LoadStepAt(inputs, links, k0, value, links[k]);
    }
    if k == k0 {
      ExpectedShiftOwn(keys, inputs, links, data, next, k);
    } else if k in links && links[k] == k0 {
      ExpectedShiftLinked(keys, inputs, links, data, next, k);
    } else {
      ExpectedShiftOther(keys, inputs, links, data, next, k);
    }
  }

  /** Loading changes only an input's variable and error text. */
  lemma LoadedInputKeeps(inp: Input, value: PyValue)
    ensures var r := LoadedInput(inp, value); r == inp.(variable := r.variable, error := r.error)
  {
    if Set(inp.variable, value).Ok? {
      AfterFocusoutError(inp.(variable := Set(inp.variable, value).value));
    }
  }

  /** A boolean input loaded with a boolean reads it back. */
  lemma LoadedBool(inp: Input, b: bool)
    requires inp.variable.vtype == BooleanVar
    ensures Get(LoadedInput(inp, Bool(b)).variable) == Ok(Bool(b))
  {
    BoolRoundTrip(inp.variable, b);
    AfterFocusoutError(inp.(variable := Set(inp.variable, Bool(b)).value));
  }

  /** Every input after a load that raised nothing is `Expected`. */
  lemma {:induction false} LoadedInputs(keys: seq<string>, inputs: map<string, Input>, links: map<string, string>,
                                        data: Record)
    requires Distinct(keys) && (forall k :: k in keys ==> k in inputs) && LinksShape(inputs, links)
    requires Loaded(keys, inputs, links, data).2.None?
    ensures forall k :: k in inputs ==> Loaded(keys, inputs, links, data).0[k] == Expected(keys, inputs, links, data, k)
  {
    if keys == [] {
      return;
    }
    var next := LoadStep(inputs, links, keys[0], DataGet(data, keys[0])).value;
    forall k | k in inputs
      ensures LinksShape(next, links)
      ensures Expected(keys[1..], next, links, data, k) == Expected(keys, inputs, links, data, k)
    {
      ExpectedShift(keys, inputs, links, data, next, k);
    }
    assert LinksShape(next, links) by {
      ExpectedShift(keys, inputs, links, data, next, keys[0]);
    }
    LoadedInputs(keys[1..], next, links, data);
  }

  /** `LoadedInputs` for one input. */
  lemma LoadedInputAt(keys: seq<string>, inputs: map<string, Input>, links: map<string, string>, data: Record,
                      k: string)
    requires Distinct(keys) && (forall j :: j in keys ==> j in inputs) && LinksShape(inputs, links)
    requires Loaded(keys, inputs, links, data).2.None? && k in inputs
    ensures Loaded(keys, inputs, links, data).0[k] == Expected(keys, inputs, links, data, k)
  {
    LoadedInputs(keys, inputs, links, data);
  }

  /** In a list of distinct fields, the field at position `i` is found there. */
  lemma IndexOfAt<T>(s: seq<T>, i: nat)
    requires i < |s| && Distinct(s)
    ensures IndexOf(s, s[i]) == i
  {
  }

  /** Loading a record whose disabling field holds True leaves each
      validated input it disables disabled and without error, and
      `get_errors` then finds nothing to report for it; an input loaded
      before that field is also emptied. */
  lemma LoadedDisabled(keys: seq<string>, inputs: map<string, Input>, links: map<string, string>, data: Record,
                       k: string, i: nat, j: nat)
    requires Distinct(keys) && Covers(keys, inputs) && LinksShape(inputs, links)
    requires Loaded(keys, inputs, links, data).2.None?
    requires k in links && IsValidated(inputs[k].kind) && inputs[k].variable.vtype != BooleanVar
    requires DataGet(data, links[k]) == Bool(true)
    requires i < |keys| && j < |keys| && keys[i] == k && keys[j] == links[k]
    ensures var out := Loaded(keys, inputs, links, data).0;
            && out[k].disabled && out[k].error == "" && AfterFocusout(out[k]) == out[k]
            && (i < j ==> out[k].variable == TkVar(inputs[k].variable.vtype, ""))
  {
    LoadedInputAt(keys, inputs, links, data, k);
    IndexOfAt(keys, i);
    IndexOfAt(keys, j);
    var f := links[k];
    LoadedBool(inputs[f], true);
    var dv := LoadedInput(inputs[f], Bool(true)).variable;
    var own := LoadedInput(inputs[k], DataGet(data, k));
    DisableCheckedMeaning(own, dv);
    DisableCheckedMeaning(inputs[k], dv);
    LoadedInputKeeps(DisableChecked(inputs[k], dv), DataGet(data, k));
    AfterFocusoutError(DisableChecked(inputs[k], dv).(variable := Set(inputs[k].variable, DataGet(data, k)).value));
    AfterFocusoutError(DisableChecked(own, dv));
  }

  /** Loading a record whose disabling field holds False enables each
      input it disables and changes nothing else about it: an input loaded
      before that field keeps what its own load left, one loaded after it
      is loaded as an enabled input. */
  lemma LoadedEnabled(keys: seq<string>, inputs: map<string, Input>, links: map<string, string>, data: Record,
                      k: string, i: nat, j: nat)
    requires Distinct(keys) && Covers(keys, inputs) && LinksShape(inputs, links)
    requires Loaded(keys, inputs, links, data).2.None?
    requires k in links && DataGet(data, links[k]) == Bool(false)
    requires i < |keys| && j < |keys| && keys[i] == k && keys[j] == links[k]
    ensures var out := Loaded(keys, inputs, links, data).0;
            && !out[k].disabled
            && (i < j ==> out[k] == LoadedInput(inputs[k], DataGet(data, k)).(disabled := false))
            && (j < i ==> out[k] == LoadedInput(inputs[k].(disabled := false), DataGet(data, k)))
  {
    var f := links[k];
    var d := DataGet(data, k);
    LoadedInputAt(keys, inputs, links, data, k);
    IndexOfAt(keys, i);
    IndexOfAt(keys, j);
    LoadedBool(inputs[f], false);
    var dv := LoadedInput(inputs[f], Bool(false)).variable;
    var e := Expected(keys, inputs, links, data, k);
    assert Loaded(keys, inputs, links, data).0[k] == e;
    DisableCheckedMeaning(inputs[k], dv);
    DisableCheckedMeaning(LoadedInput(inputs[k], d), dv);
    if j < i {
      var enabled := inputs[k].(disabled := false);
      assert e == LoadedInput(enabled, d);
      LoadedInputKeeps(enabled, d);
    } else {
      assert e == LoadedInput(inputs[k], d).(disabled := false);
    }
  }

  /** Where the linked fields and Equipment Fault sit in the schema. */
  lemma FaultFieldPositions()
    ensures |FieldNames| == 17
    ensures FieldNames[6] == "Humidity" && FieldNames[7] == "Light" && FieldNames[8] == "Temperature"
    ensures FieldNames[9] == EquipmentFault
  {
  }

  /** The form Chapter 14 builds, loaded with a record whose Equipment
      Fault is True: Humidity, Light and Temperature end disabled, empty
      and without error, so they block no save. */
  lemma FaultedRecordLoad(inputs: map<string, Input>, data: Record, k: string)
    requires FormShape(FieldNames, inputs, FaultLinks)
    requires k in FaultLinks && IsValidated(inputs[k].kind) && inputs[k].variable.vtype != BooleanVar
    requires Loaded(FieldNames, inputs, FaultLinks, data).2.None?
    requires DataGet(data, EquipmentFault) == Bool(true)
    ensures var out := Loaded(FieldNames, inputs, FaultLinks, data).0;
            && out[k].disabled && out[k].error == "" && AfterFocusout(out[k]) == out[k]
            && out[k].variable == TkVar(inputs[k].variable.vtype, "")
  {
    FaultFieldPositions();
    var i := if k == "Humidity" then 6 else if k == "Light" then 7 else 8;
    LoadedDisabled(FieldNames, inputs, FaultLinks, data, k, i, 9);
  }

  /** `LoadStep` as the step of a `Fold` over the fields. */
  function LoadStepOf(links: map<string, string>, data: Record)
    : (map<string, Input>, string) -> Result<map<string, Input>, VarError>
  {
    (m: map<string, Input>, k: string) => if k in m then LoadStep(m, links, k, DataGet(data, k)) else Ok(m)
  }

  /** `Loaded` is the `Fold` of `LoadStepOf`. */
  lemma {:induction false} LoadedFold(keys: seq<string>, inputs: map<string, Input>, links: map<string, string>,
                                      data: Record)
    requires forall k :: k in keys ==> k in inputs
    ensures Loaded(keys, inputs, links, data) == Fold(keys, inputs, LoadStepOf(links, data))
    decreases |keys|
  {
    if keys != [] {
      var s := LoadStep(inputs, links, keys[0], DataGet(data, keys[0]));
      assert LoadStepOf(links, data)(inputs, keys[0]) == s;
      if s.Ok? {
        LoadedFold(keys[1..], s.value, links, data);
      }
    }
  }

  /** The loop of `load_record` for an existing record: every field, in
      order, takes `data.get(key, '')`, fires its traces and is validated;
      a value its variable refuses raises and stops the loop. */
  method LoadFields(keys: seq<string>, inputs: map<string, Input>, links: map<string, string>, data: Record)
    returns (out: map<string, Input>, done: nat, raised: Option<VarError>)
    requires Covers(keys, inputs)
    ensures (out, done, raised) == Loaded(keys, inputs, links, data)
  {
    out, done, raised := FoldEach(keys, inputs, LoadStepOf(links, data));
    LoadedFold(keys, inputs, links, data);
  }

  class DataRecordForm {
    /** The fields, in schema order. */
    const keys: seq<string>
    /** Each linked field and the field whose variable disables it. */
    const links: map<string, string>
    var inputs: map<string, Input>
    var currentRecord: Option<RowKey>
    var recordLabel: string

    ghost predicate Valid()
      reads this
    {
      FormShape(keys, inputs, links)
    }

    /** The form over inputs already built, before its first reset. */
    constructor (keys: seq<string>, inputs: map<string, Input>, links: map<string, string>)
      requires FormShape(keys, inputs, links)
      ensures Valid() && this.keys == keys && this.inputs == inputs && this.links == links
      ensures currentRecord.None? && recordLabel == ""
    {
      this.keys := keys;
      this.links := links;
      this.inputs := inputs;
      currentRecord := None;
      recordLabel := "";
    }

    /** `get`: the form's data, or the error of the first field, in field
        order, that does not read. */
    method Get() returns (r: Result<map<string, PyValue>, VarError>)
      requires Valid()
      ensures r.Ok? <==> forall k :: k in inputs ==> ReadField(inputs[k].variable).Ok?
      ensures r.Ok? ==> r.value.Keys == inputs.Keys
      ensures r.Ok? ==> forall k :: k in inputs ==> Ok(r.value[k]) == ReadField(inputs[k].variable)
      ensures r.Err? ==> exists i :: 0 <= i < |keys| && Err(r.error) == ReadField(inputs[keys[i]].variable)
                                     && forall j :: 0 <= j < i ==> ReadField(inputs[keys[j]].variable).Ok?
    {
      r := ReadFields(keys, inputs);
    }

    /** `reset`: the form as `ResetFrom` describes; nothing else changes. */
    method Reset(autofillDate: bool, autofillSheet: bool, today: Date) returns (raised: Option<FormError>)
      requires Valid() && ValidDate(today)
      modifies this
      ensures Valid() && currentRecord == old(currentRecord) && recordLabel == old(recordLabel)
      ensures (inputs, raised) == ResetForm(old(inputs), links, autofillDate, autofillSheet, today)
    {
      inputs, raised := ResetInputs(keys, inputs, links, autofillDate, autofillSheet, today);
    }

    /** `get_errors`: the errors after focus-out validation, in field order. */
    method GetErrors() returns (errors: seq<(string, string)>)
      requires Valid()
      modifies this
      ensures Valid() && currentRecord == old(currentRecord) && recordLabel == old(recordLabel)
      ensures inputs == Focused(old(inputs))
      ensures errors == ErrorsIn(keys, inputs)
      ensures forall p :: p in errors <==> p.0 in inputs && inputs[p.0].error != "" && p.1 == inputs[p.0].error
    {
      var before := inputs;
      inputs, errors := CollectErrors(keys, inputs);
      forall k | k in before ensures inputs[k].kind == before[k].kind && inputs[k].variable == before[k].variable {
        AfterFocusoutError(before[k]);
      }
      assert SameWidgets(before, inputs);
    }

    /** `load_record(rowkey, data)`. Without a key the form is reset and,
      unless the reset raised, titled 'New Record'; with one it is titled
      after the key and the fields are loaded as `Loaded` describes. */
    method LoadRecord(rowkey: Option<RowKey>, data: Record, autofillDate: bool, autofillSheet: bool, today: Date)
      returns (raised: Option<FormError>)
      requires Valid() && ValidDate(today)
      modifies this
      ensures Valid() && currentRecord == rowkey
      ensures rowkey.None? ==> (inputs, raised) == ResetForm(old(inputs), links, autofillDate, autofillSheet, today)
      ensures rowkey.None? ==> recordLabel == if raised.None? then NewRecordTitle else old(recordLabel)
      ensures rowkey.Some? ==> recordLabel == RecordTitle(rowkey.value)
      ensures rowkey.Some? ==>
                var r := Loaded(keys, old(inputs), links, data);
                inputs == r.0 && raised == if r.2.Some? then Some(VarFailed(r.2.value)) else None
    {
      currentRecord := rowkey;
      if rowkey.None? {
        raised := Reset(autofillDate, autofillSheet, today);
        if raised.None? {
          recordLabel := NewRecordTitle;
        }
      } else {
        recordLabel := RecordTitle(rowkey.value);
        var before := inputs;
        var loaded, err;
        inputs, loaded, err := LoadFields(keys, inputs, links, data);
        raised := if err.Some? then Some(VarFailed(err.value)) else None;
        LoadedShape(keys, before, links, data);
        SameWidgetsShape(keys, links, before, inputs);
      }
    }
  }

  /** `DataRecordForm.__init__` from the inputs it has built: the fields in
      schema order, Humidity, Light and Temperature disabled by Equipment
      Fault, and a `reset` to finish; an exception from that `reset`
      leaves no form. */
  method NewForm(inputs: map<string, Input>, autofillDate: bool, autofillSheet: bool, today: Date)
    returns (r: Result<DataRecordForm, FormError>)
    requires FormShape(FieldNames, inputs, FaultLinks) && ValidDate(today)
    ensures r.Err? <==> ResetForm(inputs, FaultLinks, autofillDate, autofillSheet, today).1.Some?
    ensures r.Err? ==> Some(r.error) == ResetForm(inputs, FaultLinks, autofillDate, autofillSheet, today).1
    ensures r.Ok? ==> fresh(r.value) && r.value.Valid()
                      && r.value.keys == FieldNames && r.value.links == FaultLinks
                      && r.value.inputs == ResetForm(inputs, FaultLinks, autofillDate, autofillSheet, today).0
                      && r.value.currentRecord.None? && r.value.recordLabel == ""
  {
    var form := new DataRecordForm(FieldNames, inputs, FaultLinks);
    var raised := form.Reset(autofillDate, autofillSheet, today);
    if raised.Some? {
      return Err(raised.value);
    }
    r := Ok(form);
  }

  // ---------------------------------------------------------------------
  // RecordList
  // ---------------------------------------------------------------------

  /** The key a row gets in the list: the text (`str`) of its Date, Time,
      Lab and Plot columns; the first missing column raises `KeyError`. */
  function ListKey(row: Record): (r: Result<RowKey, ModelError>)
    ensures r.Ok? <==> "Date" in row && "Time" in row && "Lab" in row && "Plot" in row
    ensures r.Ok? ==> r.value == RowKey(Str(PyStr(row["Date"])), Str(PyStr(row["Time"])),
                                        Str(PyStr(row["Lab"])), Str(PyStr(row["Plot"])))
    ensures r.Err? ==> r.error.KeyError? && r.error.key !in row && r.error.key in ListColumns
  {
    if "Date" !in row then Err(KeyError("Date"))
    else if "Time" !in row then Err(KeyError("Time"))
    else if "Lab" !in row then Err(KeyError("Lab"))
    else if "Plot" !in row then Err(KeyError("Plot"))
    else Ok(RowKey(Str(PyStr(row["Date"])), Str(PyStr(row["Time"])), Str(PyStr(row["Lab"])), Str(PyStr(row["Plot"]))))
  }

  /** The data columns of the list, after the hidden '#0' column. */
  const ListColumns: seq<string> := ["Date", "Time", "Lab", "Plot"]

  /** The tag a row is shown with: 'inserted' before 'updated', '' when
      the row is in neither list. */
  function TagFor(key: RowKey, inserted: seq<RowKey>, updated: seq<RowKey>): (r: string)
    ensures r == "inserted" <==> key in inserted
    ensures r == "updated" <==> key !in inserted && key in updated
    ensures r == "" <==> key !in inserted && key !in updated
  {
    if key in inserted then "inserted" else if key in updated then "updated" else ""
  }

  /** One row of the tree view: its item id, its key and its tag. */
  datatype Item = Item(iid: nat, key: RowKey, tag: string)

  class RecordList {
    var inserted: seq<RowKey>
    var updated: seq<RowKey>
    /** The tree view's rows, in order. */
    var shown: seq<Item>
    var iidMap: map<nat, RowKey>
    /** The id the tree view gives the next row it inserts. */
    var nextIid: nat

    /** Both tag lists are free of duplicates, and every row on show is
      in `iid_map` under its own id. */
    predicate Valid()
      reads this
    {
      && Distinct(inserted) && Distinct(updated)
      && forall e :: e in shown ==> e.iid in iidMap && iidMap[e.iid] == e.key
    }

    constructor ()
      ensures Valid() && inserted == [] && updated == [] && shown == [] && iidMap == map[]
    {
      inserted, updated, shown, iidMap, nextIid := [], [], [], map[], 0;
    }

    /** `add_inserted_row`: the row is appended unless it is already there. */
    method AddInsertedRow(row: RowKey)
      requires Valid()
      modifies this
      ensures Valid() && row in inserted
      ensures inserted == if row in old(inserted) then old(inserted) else old(inserted) + [row]
      ensures updated == old(updated) && shown == old(shown) && iidMap == old(iidMap) && nextIid == old(nextIid)
    {
      if row !in inserted {
        inserted := inserted + [row];
      }
    }

    /** `add_updated_row`: the row is appended unless it is already there. */
    method AddUpdatedRow(row: RowKey)
      requires Valid()
      modifies this
      ensures Valid() && row in updated
      ensures updated == if row in old(updated) then old(updated) else old(updated) + [row]
      ensures inserted == old(inserted) && shown == old(shown) && iidMap == old(iidMap) && nextIid == old(nextIid)
    {
      if row !in updated {
        updated := updated + [row];
      }
    }

    /** `clear_tags`: both lists are emptied. */
    method ClearTags()
      requires Valid()
      modifies this
      ensures Valid() && inserted == [] && updated == []
      ensures shown == old(shown) && iidMap == old(iidMap) && nextIid == old(nextIid)
    {
      inserted, updated := [], [];
    }

    /** `populate`: the tree view and `iid_map` are cleared, then each row
      is shown in order with its key and tag, under a fresh id that
      `iid_map` maps to the key. A row without one of the columns raises
      and leaves the rows before it on show. */
    method Populate(rows: seq<Record>) returns (err: Option<ModelError>)
      requires Valid()
      modifies this
      ensures Valid() && inserted == old(inserted) && updated == old(updated)
      ensures |shown| <= |rows| && nextIid == old(nextIid) + |shown|
      ensures err.None? <==> |shown| == |rows|
      ensures err.Some? ==> Err(err.value) == ListKey(rows[|shown|])
      ensures forall j :: 0 <= j < |shown| ==>
                ListKey(rows[j]).Ok? && shown[j] == Item(old(nextIid) + j, ListKey(rows[j]).value,
                                                        TagFor(ListKey(rows[j]).value, inserted, updated))
      ensures forall id :: id in iidMap <==> old(nextIid) <= id < nextIid
    {
      shown := [];
      iidMap := map[];
      var i := 0;
      while i < |rows|
        invariant 0 <= i <= |rows| && |shown| == i && nextIid == old(nextIid) + i
        invariant Valid() && inserted == old(inserted) && updated == old(updated)
        invariant forall j :: 0 <= j < i ==>
                    ListKey(rows[j]).Ok? && shown[j] == Item(old(nextIid) + j, ListKey(rows[j]).value,
                                                            TagFor(ListKey(rows[j]).value, inserted, updated))
        invariant forall id :: id in iidMap <==> old(nextIid) <= id < nextIid
      {
        match ListKey(rows[i]) {
          case Err(e) =>
            return Some(e);
          case Ok(key) =>
            var item := Item(nextIid, key, TagFor(key, inserted, updated));
            shown := shown + [item];
            iidMap := iidMap[nextIid := key];
            nextIid := nextIid + 1;
        }
        i := i + 1;
      }
      err := None;
    }

    /** `selected_id`: the key of the first selected row, `None` without a
      selection, `KeyError` for an id `iid_map` does not hold. */
    function SelectedId(selection: seq<nat>): (r: Result<Option<RowKey>, ModelError>)
      reads this
      ensures r == Ok(None) <==> selection == []
      ensures r.Ok? && r.value.Some? ==> selection != [] && selection[0] in iidMap && r.value.value == iidMap[selection[0]]
      ensures r.Err? <==> selection != [] && selection[0] !in iidMap
    {
      if selection == [] then Ok(None)
      else if selection[0] in iidMap then Ok(Some(iidMap[selection[0]]))
      else Err(KeyError(NatText(selection[0])))
    }
  }

  /** Selecting a row on show gives back that row's key. */
  lemma SelectShown(list: RecordList, selection: seq<nat>, item: Item)
    requires list.Valid() && item in list.shown && selection != [] && selection[0] == item.iid
    ensures list.SelectedId(selection) == Ok(Some(item.key))
  {
  }
}
