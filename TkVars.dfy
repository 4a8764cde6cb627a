/** Tk control variables as the application sees them: every variable holds
    a Tcl string, and the typed variable classes convert that string on `get`
    and convert a Python value into a string on `set`. Blank typed variables
    are what the forms have to cope with: a cleared IntVar or DoubleVar does
    not read as a number but raises a `TclError`. */
module TkVars {
  import opened Common
  import opened Decimals

  datatype VarType = StringVar | IntVar | DoubleVar | BooleanVar

  /** A variable: its class and the Tcl string it currently holds. */
  datatype TkVar = TkVar(vtype: VarType, raw: string)

  /** The Python values that flow through the forms and the models. */
  datatype PyValue = Str(s: string) | Int(i: int) | Float(d: Decimal) | Bool(b: bool) | Null

  /** The exception a conversion raises, with its message. */
  datatype VarError = TclError(message: string) | ValueError(message: string) | TypeError(message: string)

  /** Python truthiness of a value (`if value:`). */
  predicate Truthy(v: PyValue) {
    match v
    case Str(s) => s != ""
    case Int(i) => i != 0
    case Float(d) => d.coefficient != 0
    case Bool(b) => b
    case Null => false
  }

  function Quoted(s: string): string {
    "\"" + s + "\""
  }

  /** Tcl's message for a string that is not a double. */
  function ExpectedFloat(raw: string): string {
    "expected floating-point number but got " + Quoted(raw)
  }

  function ExpectedBoolean(raw: string): string {
    "expected boolean value but got " + Quoted(raw)
  }

  const BadBooleanLiteral := "invalid literal for getboolean()"

  /** Tcl's integer syntax: an optional sign and decimal digits. */
  function ParseInt(raw: string): (r: Option<int>)
    ensures r.Some? ==> raw != []
  {
    var (negative, digits) := SplitSign(raw);
    if digits != [] && AllDigits(digits) then Some(Signed(negative, DigitsValue(digits))) else None
  }

  /** Python's `int(x)` for a float: truncation toward zero. */
  function Truncate(d: Decimal): int {
    if d.exponent >= 0 then d.coefficient * Pow10(d.exponent)
    else if d.coefficient >= 0 then d.coefficient / Pow10(-d.exponent)
    else -((-d.coefficient) / Pow10(-d.exponent))
  }

  /** The boolean words Tcl accepts, in lower case. */
  function ParseBool(raw: string): (r: Option<bool>) {
    var w := Lower(raw);
    if w in ["1", "true", "yes", "on"] then Some(true)
    else if w in ["0", "false", "no", "off"] then Some(false)
    else None
  }

  /** `var.get()`. IntVar first tries Tcl's integer reading and falls back to
      `int(getdouble(...))`, so a blank IntVar reports the floating-point
      message; BooleanVar turns Tcl's error into a `ValueError`. */
  function Get(v: TkVar): (r: Result<PyValue, VarError>)
    ensures v.vtype == StringVar ==> r == Ok(Str(v.raw))
    ensures r.Ok? && v.vtype == IntVar ==> r.value.Int?
    ensures r.Ok? && v.vtype == DoubleVar ==> r.value.Float?
    ensures r.Ok? && v.vtype == BooleanVar ==> r.value.Bool?
    ensures r.Err? && v.vtype in {IntVar, DoubleVar} ==> r.error == TclError(ExpectedFloat(v.raw))
    ensures r.Err? && v.vtype == BooleanVar ==> r.error == ValueError(BadBooleanLiteral)
  {
    match v.vtype
    case StringVar => Ok(Str(v.raw))
    case IntVar =>
      (match ParseInt(v.raw)
       case Some(i) => Ok(Int(i))
       case None =>
         match Parse(v.raw)
         case Some(d) => Ok(Int(Truncate(d)))
         case None => Err(TclError(ExpectedFloat(v.raw))))
    case DoubleVar =>
      (match Parse(v.raw)
       case Some(d) => Ok(Float(d))
       case None => Err(TclError(ExpectedFloat(v.raw))))
    case BooleanVar =>
      (match ParseBool(v.raw)
       case Some(b) => Ok(Bool(b))
       case None => Err(ValueError(BadBooleanLiteral)))
  }

  /** The Tcl string a Python value becomes when it is stored. */
  function TclText(v: PyValue): string {
    match v
    case Str(s) => s
    case Int(i) => IntText(i)
    case Float(d) => PointText(d)
    case Bool(b) => if b then "1" else "0"
    case Null => "None"
  }

  /** `var.set(value)`: string, integer and double variables store the value's
      text as it is; a BooleanVar first converts the value with `getboolean`. */
  function Set(v: TkVar, value: PyValue): (r: Result<TkVar, VarError>)
    ensures r.Ok? ==> r.value.vtype == v.vtype
    ensures v.vtype != BooleanVar ==> r == Ok(TkVar(v.vtype, TclText(value)))
    ensures v.vtype == BooleanVar && r.Ok? ==> r.value.raw in {"0", "1"}
  {
    if v.vtype != BooleanVar then Ok(TkVar(v.vtype, TclText(value)))
    else match value
      case Bool(b) => Ok(TkVar(BooleanVar, if b then "1" else "0"))
      case Int(i) => Ok(TkVar(BooleanVar, if i != 0 then "1" else "0"))
      case Str(s) =>
        (match ParseBool(s)
         case Some(b) => Ok(TkVar(BooleanVar, if b then "1" else "0"))
         case None => Err(TclError(ExpectedBoolean(s))))
      case _ => Err(TypeError("getboolean() argument must be a string or a number"))
  }

  /** The state a variable is left in by the form's clearing step:
      `set(False)` for a BooleanVar and `set('')` for every other one. */
  function Cleared(v: TkVar): (r: TkVar)
    ensures r.vtype == v.vtype
    ensures r.raw == if v.vtype == BooleanVar then "0" else ""
  {
    var cleared := Set(v, if v.vtype == BooleanVar then Bool(false) else Str(""));
    if cleared.Ok? then cleared.value else v
  }

  // ---------------------------------------------------------------------
  // Lemmas
  // ---------------------------------------------------------------------

  /** A blank variable: StringVar reads "", IntVar and DoubleVar raise the
      Tcl error for an empty double, BooleanVar raises a ValueError. */
  lemma BlankRead(t: VarType)
    ensures Get(TkVar(t, "")) ==
      match t
      case StringVar => Ok(Str(""))
      case IntVar => Err(TclError("expected floating-point number but got \"\""))
      case DoubleVar => Err(TclError("expected floating-point number but got \"\""))
      case BooleanVar => Err(ValueError(BadBooleanLiteral))
  {
    assert ParseInt("") == None;
    assert Parse("") == None by { assert Find("", ExponentMarks) == None; }
    assert ParseBool("") == None by { assert Lower("") == ""; }
    assert Quoted("") == "\"\"";
    assert ExpectedFloat("") == "expected floating-point number but got \"\"";
  }

  /** A cleared variable reads as False when it is a BooleanVar and as ''
      when it is a StringVar; a cleared IntVar or DoubleVar does not read. */
  lemma ClearedRead(v: TkVar)
    ensures Get(Cleared(v)) == if v.vtype == BooleanVar then Ok(Bool(false))
                               else if v.vtype == StringVar then Ok(Str(""))
                               else Err(TclError(ExpectedFloat("")))
  {
    BlankRead(v.vtype);
    assert Lower("0") == "0";
  }

  /** Storing an integer in an IntVar and reading it back gives that integer. */
  lemma IntRoundTrip(i: int)
    ensures Get(TkVar(IntVar, TclText(Int(i)))) == Ok(Int(i))
  {
    IntTextSplits(i);
  }

  /** Storing a boolean in a BooleanVar and reading it back gives that boolean. */
  lemma BoolRoundTrip(v: TkVar, b: bool)
    requires v.vtype == BooleanVar
    ensures Set(v, Bool(b)).Ok? && Get(Set(v, Bool(b)).value) == Ok(Bool(b))
  {
    var r := Set(v, Bool(b)).value.raw;
    assert Lower(r) == r;
  }

  /** An IntVar holding a decimal with a fraction reads as its truncation. */
  lemma IntVarTruncates(negative: bool, whole: string, frac: string)
    requires AllDigits(whole) && AllDigits(frac) && |whole| + |frac| > 0
    ensures AllDigits(whole + frac)
    ensures Get(TkVar(IntVar, (if negative then "-" else "") + (whole + "." + frac)))
            == Ok(Int(Truncate(Decimal(Signed(negative, DigitsValue(whole + frac)), -|frac|))))
  {
    var raw := (if negative then "-" else "") + (whole + "." + frac);
    ParsePointed(negative, whole, frac);
    var (n, digits) := SplitSign(raw);
    assert '.' in digits;
    assert !AllDigits(digits);
  }
}
