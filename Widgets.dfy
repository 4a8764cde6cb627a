/** The validated input widgets of the ABQ data-entry form. Each widget
    answers two questions Tk asks it: may this keystroke go through (`key`
    validation, with the proposed text, the current text, the inserted
    characters, the insertion index and the action code Tk passes as `%P %s
    %S %i %d`), and is the value acceptable when the widget loses focus
    (`focusout`). A failed check writes a message into the widget's error
    variable. Tk's own behaviour (applying an accepted keystroke, drawing
    the invalid state) is outside the model. */
module Widgets {
  import opened Common
  import opened Decimals
  import opened TkVars
  import opened Constants

  /** The outcome of a focus-out check: the verdict and the error text left
      in the widget's error variable. */
  datatype Check = Check(valid: bool, error: string)

  const RequiredMessage := "A value is required"
  const InvalidDateMessage := "Invalid date"

  /** Tk's action code for a deletion (`%d` is "0"). */
  const DeleteAction := "0"

  /** Python's `str.isdigit()`, for ASCII digits. */
  predicate IsDigitText(s: string) {
    s != [] && AllDigits(s)
  }

  // ---------------------------------------------------------------------
  // DateEntry
  // ---------------------------------------------------------------------

  const DigitPositions: seq<string> := ["0", "1", "2", "3", "5", "6", "8", "9"]
  const DashPositions: seq<string> := ["4", "7"]

  /** `DateEntry._key_validate`: deletions always pass; the positions of the
      year, month and day digits take only digits; positions 4 and 7 take only
      a hyphen; every other position is refused. */
  function DateKeyValid(action: string, index: string, inserted: string): (r: bool)
    ensures action != DeleteAction && r ==> index in DigitPositions + DashPositions
  {
    if action == DeleteAction then true
    else if index in DigitPositions then IsDigitText(inserted)
    else if index in DashPositions then inserted == "-"
    else false
  }

  /** The character a `YYYY-MM-DD` string has at position `i`. */
  predicate ShapeChar(i: nat, c: char) {
    if i == 4 || i == 7 then c == '-' else IsDigit(c)
  }

  /** `s` is a prefix of some `YYYY-MM-DD` shaped string. */
  predicate ShapePrefix(s: string) {
    |s| <= 10 && forall i :: 0 <= i < |s| ==> ShapeChar(i, s[i])
  }

  /** The index Tk reports for a position below ten is that digit; every
      other index is at least two characters long. */
  lemma PositionText(n: nat)
    ensures n < 10 ==> NatText(n) == [DigitChar(n)]
    ensures n >= 10 ==> |NatText(n)| >= 2
  {
    if n >= 10 {
      assert NatText(n) == NatText(n / 10) + [DigitChar(n % 10)];
    }
  }

  lemma PositionKinds(n: nat)
    requires n < 10
    ensures [DigitChar(n)] in DashPositions <==> n == 4 || n == 7
    ensures [DigitChar(n)] in DigitPositions <==> n != 4 && n != 7
  {
    var t := [DigitChar(n)];
    assert DashPositions == [[DigitChar(4)], [DigitChar(7)]];
    assert DigitPositions == [[DigitChar(0)], [DigitChar(1)], [DigitChar(2)], [DigitChar(3)],
                              [DigitChar(5)], [DigitChar(6)], [DigitChar(8)], [DigitChar(9)]];
  }

  lemma ShapePrefixAppend(current: string, c: char)
    requires ShapePrefix(current)
    ensures ShapePrefix(current + [c]) <==> |current| < 10 && ShapeChar(|current|, c)
  {
    var s := current + [c];
    assert s[|current|] == c;
    if |current| < 10 && ShapeChar(|current|, c) {
      forall i | 0 <= i < |s| ensures ShapeChar(i, s[i]) {
        if i < |current| { assert s[i] == current[i]; }
      }
    }
  }

  lemma DateKeyAt(n: nat, c: char)
    ensures DateKeyValid("1", NatText(n), [c]) <==> n < 10 && ShapeChar(n, c)
  {
    PositionText(n);
    var index := NatText(n);
    if n < 10 {
      PositionKinds(n);
      assert IsDigitText([c]) <==> IsDigit(c) by {
        assert [c][0] == c;
      }
    } else {
      assert forall t :: t in DigitPositions + DashPositions ==> |t| == 1;
    }
  }

  /** Typing one character at the end of the text (Tk reports the index as
      the text's length) is accepted exactly when the result still has the
      shape of an ISO date; so typed text never exceeds ten characters. */
  lemma DateKeyAtEnd(current: string, c: char)
    requires ShapePrefix(current)
    ensures DateKeyValid("1", NatText(|current|), [c]) <==> ShapePrefix(current + [c])
  {
    var n := |current|;
    PositionText(n);
    ShapePrefixAppend(current, c);
    DateKeyAt(n, c);
  }

  // ---------------------------------------------------------------------
  // Calendar check: `datetime.strptime(text, '%Y-%m-%d')`
  // ---------------------------------------------------------------------

  datatype Date = Date(year: int, month: int, day: int)

  predicate IsLeap(y: int) {
    y % 4 == 0 && (y % 100 != 0 || y % 400 == 0)
  }

  function DaysInMonth(y: int, m: int): int
    requires 1 <= m <= 12
  {
    if m == 2 then (if IsLeap(y) then 29 else 28)
    else if m in {4, 6, 9, 11} then 30
    else 31
  }

  /** A date `datetime` can represent. */
  predicate ValidDate(d: Date) {
    1 <= d.year <= 9999 && 1 <= d.month <= 12 && 1 <= d.day <= DaysInMonth(d.year, d.month)
  }

  function DigitAt(s: string, i: nat): nat
    requires i < |s| && IsDigit(s[i])
  {
    s[i] as int - '0' as int
  }

  predicate CharIn(s: string, i: nat, lo: char, hi: char) {
    i < |s| && lo <= s[i] <= hi
  }

  /** The month directive `1[0-2]|0[1-9]|[1-9]` at position `p`, alternatives
      tried in order: the month and the number of characters matched. */
  function MatchMonth(s: string, p: nat): (r: Option<(int, nat)>)
    ensures r.Some? ==> 1 <= r.value.0 <= 12 && 1 <= r.value.1 <= 2 && p + r.value.1 <= |s|
  {
    if CharIn(s, p, '1', '1') && CharIn(s, p + 1, '0', '2') then Some((10 + DigitAt(s, p + 1), 2))
    else if CharIn(s, p, '0', '0') && CharIn(s, p + 1, '1', '9') then Some((DigitAt(s, p + 1), 2))
    else if CharIn(s, p, '1', '9') then Some((DigitAt(s, p), 1))
    else None
  }

  /** The day directive `3[01]|[12]\d|0[1-9]|[1-9]| [1-9]` at position `p`. */
  function MatchDay(s: string, p: nat): (r: Option<(int, nat)>)
    ensures r.Some? ==> 1 <= r.value.0 <= 31 && 1 <= r.value.1 <= 2 && p + r.value.1 <= |s|
  {
    if CharIn(s, p, '3', '3') && CharIn(s, p + 1, '0', '1') then Some((30 + DigitAt(s, p + 1), 2))
    else if CharIn(s, p, '1', '2') && CharIn(s, p + 1, '0', '9') then Some((10 * DigitAt(s, p) + DigitAt(s, p + 1), 2))
    else if CharIn(s, p, '0', '0') && CharIn(s, p + 1, '1', '9') then Some((DigitAt(s, p + 1), 2))
    else if CharIn(s, p, '1', '9') then Some((DigitAt(s, p), 1))
    else if CharIn(s, p, ' ', ' ') && CharIn(s, p + 1, '1', '9') then Some((DigitAt(s, p + 1), 2))
    else None
  }

  /** `datetime.strptime(s, '%Y-%m-%d')`: the pattern must match from the
      start, nothing may remain after the day, and the fields must form a
      real calendar date. None where Python raises `ValueError`. */
  function ParseIsoDate(s: string): (r: Option<Date>)
    ensures r.Some? ==> ValidDate(r.value)
  {
    if |s| < 5 || !AllDigits(s[..4]) || s[4] != '-' then None
    else match MatchMonth(s, 5)
      case None => None
      case Some((month, monthLen)) =>
        var q := 5 + monthLen;
        if q >= |s| || s[q] != '-' then None
        else match MatchDay(s, q + 1)
          case None => None
          case Some((day, dayLen)) =>
            var date := Date(DigitsValue(s[..4]), month, day);
            if q + 1 + dayLen != |s| || !ValidDate(date) then None else Some(date)
  }

  function Pad2(n: nat): (r: string)
    requires n < 100
  {
    [DigitChar(n / 10), DigitChar(n % 10)]
  }

  /** `YYYY-MM-DD`, the text `strftime('%Y-%m-%d')` gives for a date with a
      four-digit year. */
  function IsoText(d: Date): (r: string)
    requires ValidDate(d)
  {
    Pad2(d.year / 100) + Pad2(d.year % 100) + "-" + Pad2(d.month) + "-" + Pad2(d.day)
  }

  lemma MatchPad2Month(s: string, p: nat, m: int)
    requires 1 <= m <= 12 && p + 2 <= |s| && s[p..p + 2] == Pad2(m)
    ensures MatchMonth(s, p) == Some((m, 2))
  {
    assert s[p] == Pad2(m)[0] && s[p + 1] == Pad2(m)[1];
  }

  lemma MatchPad2Day(s: string, p: nat, d: int)
    requires 1 <= d <= 31 && p + 2 <= |s| && s[p..p + 2] == Pad2(d)
    ensures MatchDay(s, p) == Some((d, 2))
  {
    assert s[p] == Pad2(d)[0] && s[p + 1] == Pad2(d)[1];
  }

  lemma DigitsValuePad4(y: int)
    requires 0 <= y <= 9999
    ensures AllDigits(Pad2(y / 100) + Pad2(y % 100))
    ensures DigitsValue(Pad2(y / 100) + Pad2(y % 100)) == y
  {
    var a, b, c, d := y / 1000, y / 100 % 10, y % 100 / 10, y % 10;
    assert y / 100 == 10 * a + b;
    assert y % 100 == 10 * c + d;
    var s := Pad2(y / 100) + Pad2(y % 100);
    assert s == [DigitChar(a), DigitChar(b), DigitChar(c), DigitChar(d)];
    assert s[..3] == [DigitChar(a), DigitChar(b), DigitChar(c)];
    assert s[..3][..2] == [DigitChar(a), DigitChar(b)];
    assert s[..3][..2][..1] == [DigitChar(a)];
    assert DigitsValue([DigitChar(a)]) == a;
    assert DigitsValue([DigitChar(a), DigitChar(b)]) == 10 * a + b;
    assert DigitsValue([DigitChar(a), DigitChar(b), DigitChar(c)]) == 100 * a + 10 * b + c;
  }

  /** Every valid date written as `YYYY-MM-DD` passes the calendar check and
      reads back as the same date. */
  lemma ParseIsoText(d: Date)
    requires ValidDate(d)
    ensures ParseIsoDate(IsoText(d)) == Some(d)
  {
    var s := IsoText(d);
    var year := Pad2(d.year / 100) + Pad2(d.year % 100);
    assert |s| == 10;
    assert s[..4] == year;
    DigitsValuePad4(d.year);
    assert s[5..7] == Pad2(d.month);
    MatchPad2Month(s, 5, d.month);
    assert s[7] == '-';
    assert s[8..10] == Pad2(d.day);
    MatchPad2Day(s, 8, d.day);
  }

  /** `DateEntry._focusout_validate`: an empty text first gets the 'required'
      message, which the failed date check then overwrites. */
  function DateFocusOut(text: string): (r: Check)
    ensures r.valid <==> ParseIsoDate(text).Some?
    ensures r.error == if r.valid then "" else InvalidDateMessage
  {
    var (valid, error) := if text == "" then (false, RequiredMessage) else (true, "");
    if ParseIsoDate(text).None? then Check(false, InvalidDateMessage) else Check(valid, error)
  }

  // ---------------------------------------------------------------------
  // RequiredEntry, and the focus-out check the combobox and radio group share
  // ---------------------------------------------------------------------

  /** A non-empty value passes; an empty one gets the 'required' message. */
  function RequiredFocusOut(text: string): (r: Check)
    ensures r.valid <==> text != ""
    ensures r.error == if text == "" then RequiredMessage else ""
  {
    if text == "" then Check(false, RequiredMessage) else Check(true, "")
  }

  // ---------------------------------------------------------------------
  // ValidatedCombobox
  // ---------------------------------------------------------------------

  /** `x.lower().startswith(proposed.lower())`. */
  predicate PrefixMatch(x: string, proposed: string) {
    StartsWith(Lower(x), Lower(proposed))
  }

  /** The values that match the proposed text case-insensitively, in order. */
  function Matching(values: seq<string>, proposed: string): (r: seq<string>)
    ensures forall x :: x in r <==> x in values && PrefixMatch(x, proposed)
    ensures |r| <= |values|
  {
    if values == [] then []
    else if PrefixMatch(values[0], proposed) then [values[0]] + Matching(values[1..], proposed)
    else Matching(values[1..], proposed)
  }

  /** The outcome of a combobox keystroke: the verdict, and the text the
      widget was set to, if it was set. */
  datatype ComboKey = ComboKey(valid: bool, newText: Option<string>)

  /** `ValidatedCombobox._key_validate`. */
  function ComboboxKey(values: seq<string>, proposed: string, action: string): (r: ComboKey)
  {
    if action == DeleteAction then ComboKey(true, Some(""))
    else
      var matching := Matching(values, proposed);
      if |matching| == 0 then ComboKey(false, None)
      else if |matching| == 1 then ComboKey(false, Some(matching[0]))
      else ComboKey(true, None)
  }

  /** A keystroke that is not a deletion is accepted iff at least two values
      match; it rewrites the text iff exactly one value matches, and then the
      text becomes that value. */
  lemma ComboboxKeyMeaning(values: seq<string>, proposed: string, action: string)
    requires action != DeleteAction
    ensures var r := ComboboxKey(values, proposed, action);
      && (r.valid <==> |Matching(values, proposed)| >= 2)
      && (r.newText.Some? <==> |Matching(values, proposed)| == 1)
      && (r.newText.Some? ==>
            && r.newText.value in values && PrefixMatch(r.newText.value, proposed)
            && forall x :: x in values && PrefixMatch(x, proposed) ==> x == r.newText.value)
  {
    var m := Matching(values, proposed);
    if |m| == 1 {
      forall x | x in values && PrefixMatch(x, proposed) ensures x == m[0] {
        assert x in m;
      }
    }
  }

  // ---------------------------------------------------------------------
  // ValidatedSpinbox
  // ---------------------------------------------------------------------

  /** The bounds and the precision a spinbox validates against. `precision`
      is the exponent of the normalized increment: -2 for 0.01, 0 for 1. */
  datatype Spin = Spin(min: Limit, max: Limit, precision: int)

  /** `increment.normalize().as_tuple().exponent`. */
  function Precision(increment: Decimal): int {
    Normalize(increment).exponent
  }

  /** The spinbox created without an increment uses '1.0', which allows no
      decimal places; 0.01 allows two. */
  lemma DefaultPrecision()
    ensures Precision(Decimal(10, -1)) == 0
    ensures Precision(Decimal(1, -2)) == -2
  {
    assert Normalize(Decimal(10, -1)) == Normalize(Decimal(1, 0));
  }

  /** The three outcomes of a spinbox keystroke check; `Raises` is the
      `InvalidOperation` that `Decimal(proposed)` throws. */
  datatype KeyOutcome = Accept | Reject | Raises

  const SpinChars := "-1234567890."

  /** The first filter: characters that can never be typed. `char in
      '-1234567890.'` is a substring test, so a pasted run such as "90"
      passes it. */
  predicate SpinCharRefused(spin: Spin, inserted: string, index: string, current: string) {
    || !IsSubstring(inserted, SpinChars)
    || (inserted == "-" && (LimitNonNegative(spin.min) || index != "0"))
    || (inserted == "." && (spin.precision >= 0 || IsSubstring(".", current)))
  }

  /** The partial entries the spinbox lets through unparsed: `proposed in
      '-.'`, again a substring test, holds for "", "-", "." and "-.". */
  predicate PartialEntry(proposed: string) {
    IsSubstring(proposed, "-.")
  }

  /** A parsed value the spinbox refuses: above the maximum, or with more
      decimal places than the increment. The minimum plays no part. */
  predicate SpinValueRefused(spin: Spin, d: Decimal) {
    AboveLimit(d, spin.max) || d.exponent < spin.precision
  }

  /** `ValidatedSpinbox._key_validate` as written: the comment before the
      conversion assumes the filter leaves only partial entries or decimal
      strings, but a digit typed before a minus sign, or a pasted "0."
      after a decimal, yields text `Decimal` refuses, and the exception
      escapes the validation callback. */
  function SpinKeyAsWritten(spin: Spin, inserted: string, index: string, current: string,
                            proposed: string, action: string): (r: KeyOutcome)
  {
    if action == DeleteAction then Accept
    else if SpinCharRefused(spin, inserted, index, current) then Reject
    else if PartialEntry(proposed) then Accept
    else match Parse(proposed)
      case None => Raises
      case Some(d) => if SpinValueRefused(spin, d) then Reject else Accept
  }

  /** The keystroke check with the evident intent: text that is neither a
      partial entry nor a decimal is refused instead of raising. */
  function SpinKey(spin: Spin, inserted: string, index: string, current: string,
                   proposed: string, action: string): (r: bool)
    ensures r && action != DeleteAction ==>
              PartialEntry(proposed) ||
              (Parse(proposed).Some? && !SpinValueRefused(spin, Parse(proposed).value))
    ensures action != DeleteAction && SpinCharRefused(spin, inserted, index, current) ==> !r
  {
    if action == DeleteAction then true
    else if SpinCharRefused(spin, inserted, index, current) then false
    else if PartialEntry(proposed) then true
    else match Parse(proposed)
      case None => false
      case Some(d) => !SpinValueRefused(spin, d)
  }

  /** Wherever the source does not raise, the corrected check agrees with it;
      it raises exactly on filtered keystrokes whose text does not parse. */
  lemma SpinKeyAgrees(spin: Spin, inserted: string, index: string, current: string,
                      proposed: string, action: string)
    ensures var w := SpinKeyAsWritten(spin, inserted, index, current, proposed, action);
      && (w == Raises <==> action != DeleteAction && !SpinCharRefused(spin, inserted, index, current)
                           && !PartialEntry(proposed) && Parse(proposed).None?)
      && (w != Raises ==> (w == Accept <==> SpinKey(spin, inserted, index, current, proposed, action)))
  {
  }

  /** The keystroke check never looks at the minimum beyond its sign: two
      spinboxes that differ only in a minimum of the same sign decide every
      keystroke alike, so nothing is refused for being too low. */
  lemma SpinKeyIgnoresMinimum(a: Spin, b: Spin, inserted: string, index: string, current: string,
                              proposed: string, action: string)
    requires a.max == b.max && a.precision == b.precision
    requires LimitNonNegative(a.min) == LimitNonNegative(b.min)
    ensures SpinKey(a, inserted, index, current, proposed, action) == SpinKey(b, inserted, index, current, proposed, action)
  {
  }

  /** The input the source's comment overlooks: with the text "-1", a "2"
      typed at index 0 proposes "2-1", which `Decimal` refuses. */
  lemma SpinKeyRaisesExample()
    ensures SpinKeyAsWritten(Spin(NegInfinity, PosInfinity, 0), "2", "0", "-1", "2-1", "1") == Raises
    ensures !SpinKey(Spin(NegInfinity, PosInfinity, 0), "2", "0", "-1", "2-1", "1")
  {
    var spin := Spin(NegInfinity, PosInfinity, 0);
    assert OccursAt("2", SpinChars, 2);
    assert !SpinCharRefused(spin, "2", "0", "-1");
    assert !PartialEntry("2-1");
    assert Find("2-1", ExponentMarks) == None by { FindNone("2-1", ExponentMarks); }
    assert Find("2-1", PointMark) == None by { FindNone("2-1", PointMark); }
    assert !AllDigits("2-1") by { assert !IsDigit("2-1"[1]); }
  }

  function TooLowMessage(spin: Spin): string {
    "Value is too low (min " + LimitText(spin.min) + ")"
  }

  function TooHighMessage(spin: Spin): string {
    "Value is too high (max " + LimitText(spin.max) + ")"
  }

  /** `ValidatedSpinbox._focusout_validate`: text that is not a decimal is
      reported as such; otherwise a value below the minimum or above the
      maximum is refused with a message naming the bound (the maximum's
      message wins when both apply). */
  function SpinFocusOut(spin: Spin, text: string): (r: Check)
    ensures r.valid <==> match Parse(text)
                         case None => false
                         case Some(d) => !BelowLimit(d, spin.min) && !AboveLimit(d, spin.max)
    ensures Parse(text).None? ==> r.error == "Invalid number string: " + text
    ensures Parse(text).Some? && AboveLimit(Parse(text).value, spin.max) ==> r.error == TooHighMessage(spin)
    ensures Parse(text).Some? && BelowLimit(Parse(text).value, spin.min) && !AboveLimit(Parse(text).value, spin.max) ==>
              r.error == TooLowMessage(spin)
    ensures r.valid <==> r.error == ""
  {
    match Parse(text)
    case None => Check(false, "Invalid number string: " + text)
    case Some(d) =>
      var low := if BelowLimit(d, spin.min) then Check(false, TooLowMessage(spin)) else Check(true, "");
      if AboveLimit(d, spin.max) then Check(false, TooHighMessage(spin)) else low
  }

  // ---------------------------------------------------------------------
  // Inputs and the validation entry points
  // ---------------------------------------------------------------------

  /** The kinds of input the form uses, with the configuration each check
      depends on. */
  datatype InputKind =
    | DateInput
    | RequiredInput
    | ComboboxInput(values: seq<string>)
    | SpinboxInput(spin: Spin)
    | RadioGroupInput(options: seq<string>)
    | TextInput
    | CheckInput

  /** An input: its kind, its variable, its error variable's text and
      whether it is disabled. */
  datatype Input = Input(kind: InputKind, variable: TkVar, error: string, disabled: bool)

  /** The inputs built on `ValidatedMixin`. */
  predicate IsValidated(kind: InputKind) {
    kind.DateInput? || kind.RequiredInput? || kind.ComboboxInput? || kind.SpinboxInput?
  }

  /** The inputs that have `trigger_focusout_validation`: the mixin inputs
      and the radio group; the text box and the checkbutton do not. */
  predicate HasTrigger(kind: InputKind) {
    IsValidated(kind) || kind.RadioGroupInput?
  }

  /** The focus-out check of a mixin input over the widget's text. */
  function FocusOutCheck(kind: InputKind, text: string): (r: Check)
    requires IsValidated(kind)
    ensures r.valid <==> r.error == ""
  {
    match kind
    case DateInput => DateFocusOut(text)
    case SpinboxInput(spin) => SpinFocusOut(spin, text)
    case _ => RequiredFocusOut(text)
  }

  /** `ValidatedMixin._validate`: the error is cleared first; a disabled input
      is valid; `focusout` and `key` go to the input's own checks; any other
      event is valid. Only a combobox keystroke changes the text. */
  function Validate(inp: Input, proposed: string, current: string, inserted: string,
                    event: string, index: string, action: string): (r: (bool, Input))
    requires IsValidated(inp.kind)
    ensures r.1.kind == inp.kind && r.1.disabled == inp.disabled
    ensures inp.disabled || event !in {"key", "focusout"} ==> r == (true, inp.(error := ""))
    ensures event != "focusout" ==> r.1.error == ""
    ensures !inp.kind.ComboboxInput? ==> r.1.variable == inp.variable
  {
    var cleared := inp.(error := "");
    if inp.disabled then (true, cleared)
    else if event == "focusout" then
      var c := FocusOutCheck(inp.kind, inp.variable.raw);
      (c.valid, cleared.(error := c.error))
    else if event == "key" then
      match inp.kind
      case DateInput => (DateKeyValid(action, index, inserted), cleared)
      case SpinboxInput(spin) => (SpinKey(spin, inserted, index, current, proposed, action), cleared)
      case ComboboxInput(values) =>
        var k := ComboboxKey(values, proposed, action);
        var text := if k.newText.Some? then k.newText.value else inp.variable.raw;
        (k.valid, cleared.(variable := TkVar(inp.variable.vtype, text)))
      case _ => (true, cleared)
    else (true, cleared)
  }

  /** `trigger_focusout_validation`. The mixin inputs run `_validate` with the
      `focusout` event; the radio group clears its error and sets the
      'required' message when nothing is selected, disabled or not. The
      radio group's method returns None and every caller ignores the
      result; the boolean here is whether an error text is left. */
  function TriggerFocusout(inp: Input): (r: (bool, Input))
    requires HasTrigger(inp.kind)
    ensures r.1 == inp.(error := r.1.error)
    ensures r.0 <==> r.1.error == ""
  {
    if inp.kind.RadioGroupInput? then
      var c := RequiredFocusOut(inp.variable.raw);
      (c.valid, inp.(error := c.error))
    else Validate(inp, "", "", "", "focusout", "", "")
  }

  /** What focus-out validation leaves in the error variable: nothing for a
      disabled mixin input, otherwise the check of its current text. */
  lemma TriggerFocusoutError(inp: Input)
    requires HasTrigger(inp.kind)
    ensures TriggerFocusout(inp).1.error ==
      if IsValidated(inp.kind) && inp.disabled then ""
      else if IsValidated(inp.kind) then FocusOutCheck(inp.kind, inp.variable.raw).error
      else RequiredFocusOut(inp.variable.raw).error
  {
  }

  // ---------------------------------------------------------------------
  // LabelInput: from a field specification to the input and its arguments
  // ---------------------------------------------------------------------

  /** The input classes a `LabelInput` can be asked to build. */
  datatype InputClass =
    | RequiredEntry | ValidatedCombobox | ValidatedRadioGroup | DateEntry
    | BoundText | ValidatedSpinbox | Checkbutton | Button | Radiobutton

  /** `LabelInput.field_types`: the input class for each field type. */
  function ClassFor(t: FieldType): InputClass {
    match t
    case String => RequiredEntry
    case StringList => ValidatedCombobox
    case ShortStringList => ValidatedRadioGroup
    case IsoDateString => DateEntry
    case LongString => BoundText
    case DecimalType => ValidatedSpinbox
    case IntegerType => ValidatedSpinbox
    case BooleanType => Checkbutton
  }

  /** A field specification: each entry may be absent from the dictionary. */
  datatype FieldSpec = FieldSpec(
    req: Option<bool>, ftype: Option<FieldType>,
    min: Option<Decimal>, max: Option<Decimal>, inc: Option<Decimal>,
    values: Option<seq<string>>)

  /** `if field_spec:` — an empty dictionary is false. */
  predicate NonEmpty(spec: FieldSpec) {
    spec.req.Some? || spec.ftype.Some? || spec.min.Some? || spec.max.Some? || spec.inc.Some? || spec.values.Some?
  }

  /** A value in the input-argument dictionary. `Var` is the field's own
      variable. */
  datatype ArgValue = Number(d: Decimal) | Choices(items: seq<string>) | Text(s: string) | Var | Other

  /** The input-argument key a specification entry fills, and the entry. */
  function SpecEntry(spec: FieldSpec, key: string): Option<ArgValue> {
    if key == "from_" && spec.min.Some? then Some(Number(spec.min.value))
    else if key == "to" && spec.max.Some? then Some(Number(spec.max.value))
    else if key == "increment" && spec.inc.Some? then Some(Number(spec.inc.value))
    else if key == "values" && spec.values.Some? then Some(Choices(spec.values.value))
    else None
  }

  const SpecKeys: set<string> := {"from_", "to", "increment", "values"}
  const BindKeys: set<string> := {"text", "variable", "textvariable"}

  /** One `if '<entry>' in field_spec and '<key>' not in input_args` step:
      the argument is filled from the specification only when missing. */
  function Fill(args: map<string, ArgValue>, key: string, entry: Option<ArgValue>): (r: map<string, ArgValue>)
    ensures forall k :: k != key ==> (k in r <==> k in args) && (k in r ==> r[k] == args[k])
    ensures key in r <==> key in args || entry.Some?
    ensures key in r ==> r[key] == if key in args then args[key] else entry.value
  {
    if entry.Some? && key !in args then args[key := entry.value] else args
  }

  /** The argument a specification key ends up with. */
  predicate SpecArgFilled(inputArgs: map<string, ArgValue>, spec: Option<FieldSpec>,
                          args: map<string, ArgValue>, k: string) {
    if k in inputArgs then k in args && args[k] == inputArgs[k]
    else if spec.Some? && NonEmpty(spec.value) && SpecEntry(spec.value, k).Some?
    then k in args && args[k] == SpecEntry(spec.value, k).value
    else k !in args
  }

  lemma FillSteps(inputArgs: map<string, ArgValue>, spec: FieldSpec)
    requires NonEmpty(spec)
    ensures var args := Fill(Fill(Fill(Fill(inputArgs, "from_", SpecEntry(spec, "from_")),
                                       "to", SpecEntry(spec, "to")),
                                  "increment", SpecEntry(spec, "increment")),
                             "values", SpecEntry(spec, "values"));
      && (forall k :: k in SpecKeys ==> SpecArgFilled(inputArgs, Some(spec), args, k))
      && (forall k :: k !in SpecKeys ==> (k in args <==> k in inputArgs) && (k in args ==> args[k] == inputArgs[k]))
  {
  }

  /** The classes bound through `variable` rather than `textvariable`. */
  predicate BindsVariable(cls: Option<InputClass>) {
    cls == Some(Checkbutton) || cls == Some(Button) || cls == Some(Radiobutton) || cls == Some(ValidatedRadioGroup)
  }

  lemma BindSteps(cls: Option<InputClass>, labelText: string, specArgs: map<string, ArgValue>)
    ensures var a := if cls == Some(Checkbutton) || cls == Some(Button) then specArgs["text" := Text(labelText)] else specArgs;
            var args := if BindsVariable(cls) then a["variable" := Var] else a["textvariable" := Var];
      && (forall k :: k !in BindKeys ==> (k in args <==> k in specArgs) && (k in args ==> args[k] == specArgs[k]))
      && ((cls == Some(Checkbutton) || cls == Some(Button)) ==> "text" in args && args["text"] == Text(labelText))
      && (BindsVariable(cls) ==> "variable" in args && args["variable"] == Var)
      && (!BindsVariable(cls) ==> "textvariable" in args && args["textvariable"] == Var)
  {
  }

  /** `LabelInput.__init__` up to building the input: the input class comes
      from the caller or else from the field type (a string field when the
      type is missing); `min`, `max`, `inc` and `values` of the specification
      fill `from_`, `to`, `increment` and `values` unless the caller gave
      them; buttons get the label as their text; buttons and radio inputs
      are bound through `variable`, every other input through `textvariable`. */
  method ResolveInput(labelText: string, inputClass: Option<InputClass>, inputArgs: map<string, ArgValue>,
                      fieldSpec: Option<FieldSpec>)
    returns (cls: Option<InputClass>, args: map<string, ArgValue>)
    ensures fieldSpec.Some? && NonEmpty(fieldSpec.value) && inputClass.None? ==>
              cls == Some(ClassFor(if fieldSpec.value.ftype.Some? then fieldSpec.value.ftype.value else String))
    ensures !(fieldSpec.Some? && NonEmpty(fieldSpec.value) && inputClass.None?) ==> cls == inputClass
    ensures forall k :: k in SpecKeys ==> SpecArgFilled(inputArgs, fieldSpec, args, k)
    ensures (cls == Some(Checkbutton) || cls == Some(Button)) ==> "text" in args && args["text"] == Text(labelText)
    ensures BindsVariable(cls) ==> "variable" in args && args["variable"] == Var
    ensures !BindsVariable(cls) ==> "textvariable" in args && args["textvariable"] == Var
    ensures forall k :: k !in SpecKeys && k !in BindKeys ==>
              (k in args <==> k in inputArgs) && (k in args ==> args[k] == inputArgs[k])
  {
    args := inputArgs;
    cls := inputClass;
    if fieldSpec.Some? && NonEmpty(fieldSpec.value) {
      var spec := fieldSpec.value;
      var fieldType := if spec.ftype.Some? then spec.ftype.value else String;
      if cls.None? {
        cls := Some(ClassFor(fieldType));
      }
      args := Fill(args, "from_", SpecEntry(spec, "from_"));
      args := Fill(args, "to", SpecEntry(spec, "to"));
      args := Fill(args, "increment", SpecEntry(spec, "increment"));
      args := Fill(args, "values", SpecEntry(spec, "values"));
      FillSteps(inputArgs, spec);
    }
    var specArgs := args;
    if cls == Some(Checkbutton) || cls == Some(Button) {
      args := args["text" := Text(labelText)];
    }
    if BindsVariable(cls) {
      args := args["variable" := Var];
    } else {
      args := args["textvariable" := Var];
    }
    BindSteps(cls, labelText, specArgs);
    assert forall k :: k in SpecKeys ==> k !in BindKeys;
    assert forall k :: k in SpecKeys ==> SpecArgFilled(inputArgs, fieldSpec, specArgs, k);
  }

  function NumberArg(args: map<string, ArgValue>, key: string): Option<Decimal> {
    if key in args && args[key].Number? then Some(args[key].d) else None
  }

  function ChoicesArg(args: map<string, ArgValue>): seq<string> {
    if "values" in args && args["values"].Choices? then args["values"].items else []
  }

  /** The spinbox a set of arguments builds: `from_` and `to` default to the
      infinities and the increment to 1.0. */
  function SpinFor(args: map<string, ArgValue>): (r: Spin)
    ensures NumberArg(args, "increment").None? ==> r.precision == 0
  {
    var min := NumberArg(args, "from_");
    var max := NumberArg(args, "to");
    var inc := NumberArg(args, "increment");
    DefaultPrecision();
    Spin(if min.Some? then Finite(min.value) else NegInfinity,
         if max.Some? then Finite(max.value) else PosInfinity,
         Precision(if inc.Some? then inc.value else Decimal(10, -1)))
  }

  /** The input a resolved class and its arguments give, for the classes the
      form builds from field types. */
  function KindFor(cls: InputClass, args: map<string, ArgValue>): (r: Option<InputKind>)
    ensures r.Some? ==> (IsValidated(r.value) <==> cls in {RequiredEntry, DateEntry, ValidatedCombobox, ValidatedSpinbox})
  {
    match cls
    case RequiredEntry => Some(RequiredInput)
    case DateEntry => Some(DateInput)
    case ValidatedCombobox => Some(ComboboxInput(ChoicesArg(args)))
    case ValidatedSpinbox => Some(SpinboxInput(SpinFor(args)))
    case ValidatedRadioGroup => Some(RadioGroupInput(ChoicesArg(args)))
    case BoundText => Some(TextInput)
    case Checkbutton => Some(CheckInput)
    case _ => None
  }

  /** The new bound a spinbox takes from its bound variable: a number read
      from it, or the old bound when reading fails. */
  function NewBound(old_: Limit, bound: TkVar): (r: Limit)
    ensures Get(bound).Err? ==> r == old_
  {
    match Get(bound)
    case Ok(Float(d)) => Finite(d)
    case Ok(Int(i)) => Finite(Decimal(i, 0))
    case _ => old_
  }

  /** The input after `LabelInput._check_disable` has run against its
      disabling variable: a true value disables the input and clears its
      variable and its error, a false one enables it. Reading the variable
      can raise, and clearing a boolean variable with '' raises after the
      input is disabled; a trace callback that raises is reported by Tk and
      the write that fired it goes on, so the input keeps what was done
      before the raise. */
  function DisableChecked(inp: Input, disableVar: TkVar): (r: Input)
    ensures r.kind == inp.kind && r.variable.vtype == inp.variable.vtype
    ensures Get(disableVar).Ok? ==> r.disabled == Truthy(Get(disableVar).value)
    ensures Get(disableVar).Err? ==> r == inp
    ensures !r.disabled ==> r.variable == inp.variable && r.error == inp.error
  {
    match Get(disableVar)
    case Err(_) => inp
    case Ok(v) =>
      if !Truthy(v) then inp.(disabled := false)
      else match Set(inp.variable, Str(""))
        case Err(_) => inp.(disabled := true)
        case Ok(cleared) => inp.(disabled := true, variable := cleared, error := "")
  }

  /** A true disabling value leaves a non-boolean input disabled, empty and
      without error, and focus-out validation then finds nothing to report;
      a false one enables the input and leaves the rest as it was. */
  lemma DisableCheckedMeaning(inp: Input, disableVar: TkVar)
    requires Get(disableVar).Ok?
    ensures Truthy(Get(disableVar).value) && inp.variable.vtype != BooleanVar ==>
              DisableChecked(inp, disableVar) == inp.(disabled := true, variable := TkVar(inp.variable.vtype, ""), error := "")
    ensures Truthy(Get(disableVar).value) && IsValidated(inp.kind) ==>
              TriggerFocusout(DisableChecked(inp, disableVar)) == (true, DisableChecked(inp, disableVar).(error := ""))
    ensures !Truthy(Get(disableVar).value) ==> DisableChecked(inp, disableVar) == inp.(disabled := false)
  {
  }

  /** The trace may fire any number of times for one value: running the
      check twice leaves the input as running it once. */
  lemma DisableCheckedIdempotent(inp: Input, disableVar: TkVar)
    ensures DisableChecked(DisableChecked(inp, disableVar), disableVar) == DisableChecked(inp, disableVar)
  {
  }

  /** A labelled input: the input's kind and configuration, its variable,
      the text of its error variable, whether it is disabled, and whether a
      disabling variable was attached. The form keeps its inputs as `Input`
      values and applies `Validate`, `TriggerFocusout` and `DisableChecked`
      to them directly, so this class is the one-widget view of the same
      functions and no other member calls its methods. */
  class LabelInput {
    var kind: InputKind
    var variable: TkVar
    var error: string
    var disabled: bool
    const hasDisableVar: bool

    function State(): Input
      reads this
    {
      Input(kind, variable, error, disabled)
    }

    constructor (kind: InputKind, variable: TkVar, hasDisableVar: bool)
      ensures State() == Input(kind, variable, "", false)
      ensures this.hasDisableVar == hasDisableVar
    {
      this.kind := kind;
      this.variable := variable;
      this.error := "";
      this.disabled := false;
      this.hasDisableVar := hasDisableVar;
    }

    /** The validation command Tk calls. */
    method OnValidate(proposed: string, current: string, inserted: string,
                      event: string, index: string, action: string) returns (valid: bool)
      requires IsValidated(kind)
      modifies this
      ensures (valid, State()) == Validate(old(State()), proposed, current, inserted, event, index, action)
    {
      var r := Validate(State(), proposed, current, inserted, event, index, action);
      valid := r.0;
      kind, variable, error, disabled := r.1.kind, r.1.variable, r.1.error, r.1.disabled;
    }

    method TriggerFocusoutValidation() returns (valid: bool)
      requires HasTrigger(kind)
      modifies this
      ensures (valid, State()) == TriggerFocusout(old(State()))
    {
      var r := TriggerFocusout(State());
      valid := r.0;
      error := r.1.error;
    }

    /** `ValidatedSpinbox._set_minimum`, run when the minimum variable is
      written: the bound follows the variable when it reads as a number, the
      text is kept, and focus-out validation runs against the new bounds. */
    method SetMinimum(minVar: TkVar)
      requires kind.SpinboxInput?
      modifies this
      ensures kind == SpinboxInput(old(kind.spin).(min := NewBound(old(kind.spin.min), minVar)))
      ensures State() == TriggerFocusout(old(State()).(kind := kind)).1
    {
      kind := SpinboxInput(kind.spin.(min := NewBound(kind.spin.min, minVar)));
      var _ := TriggerFocusoutValidation();
    }

    /** `ValidatedSpinbox._set_maximum`, the same for the maximum. */
    method SetMaximum(maxVar: TkVar)
      requires kind.SpinboxInput?
      modifies this
      ensures kind == SpinboxInput(old(kind.spin).(max := NewBound(old(kind.spin.max), maxVar)))
      ensures State() == TriggerFocusout(old(State()).(kind := kind)).1
    {
      kind := SpinboxInput(kind.spin.(max := NewBound(kind.spin.max, maxVar)));
      var _ := TriggerFocusoutValidation();
    }

    /** `LabelInput._check_disable`, run when the disabling variable is
      written: the input becomes `DisableChecked` of its old state. Reading
      the variable can raise; clearing a boolean variable with '' raises
      after the input is disabled. */
    method CheckDisable(disableVar: TkVar) returns (raised: Option<VarError>)
      modifies this
      ensures kind == old(kind)
      ensures !hasDisableVar ==> raised.None? && State() == old(State())
      ensures hasDisableVar ==> State() == DisableChecked(old(State()), disableVar)
      ensures hasDisableVar && Get(disableVar).Err? ==> raised == Some(Get(disableVar).error)
      ensures hasDisableVar && Get(disableVar).Ok? ==>
                (raised.None? <==> !Truthy(Get(disableVar).value) || Set(old(variable), Str("")).Ok?)
    {
      raised := None;
      if !hasDisableVar {
        return;
      }
      match Get(disableVar)
      case Err(e) =>
        raised := Some(e);
      case Ok(v) =>
        if Truthy(v) {
          disabled := true;
          match Set(variable, Str(""))
          case Err(e) =>
            raised := Some(e);
          case Ok(cleared) =>
            variable := cleared;
            error := "";
        } else {
          disabled := false;
        }
    }
  }
}
