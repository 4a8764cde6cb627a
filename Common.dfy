/** Small shared vocabulary: optional values, results, and the few string
    operations of Python's `str` that the application relies on. */
module Common {

  datatype Option<+T> = None | Some(value: T)

  datatype Result<+T, +E> = Ok(value: T) | Err(error: E)

  datatype Outcome<+E> = Pass | Fail(error: E)

  /** Python's `str.startswith`. */
  predicate StartsWith(s: string, prefix: string) {
    |prefix| <= |s| && s[..|prefix|] == prefix
  }

  predicate OccursAt(sub: string, s: string, i: int) {
    0 <= i <= |s| - |sub| && s[i..i + |sub|] == sub
  }

  /** Python's `sub in s` for two strings: `sub` occurs contiguously in `s`. */
  predicate IsSubstring(sub: string, s: string) {
    exists i | 0 <= i <= |s| - |sub| :: OccursAt(sub, s, i)
  }

  function LowerChar(c: char): char {
    if 'A' <= c <= 'Z' then (c as int + 32) as char else c
  }

  /** Python's `str.lower`, restricted to the ASCII letters. */
  function Lower(s: string): (r: string)
    ensures |r| == |s|
    ensures forall i :: 0 <= i < |s| ==> r[i] == LowerChar(s[i])
  {
    if s == [] then [] else [LowerChar(s[0])] + Lower(s[1..])
  }

  predicate IsSpace(c: char) {
    c == ' ' || c == '\t' || c == '\n' || c == '\r' || c == '\U{0B}' || c == '\U{0C}'
  }

  function TrimLeft(s: string): (r: string)
    ensures |r| <= |s| && r == s[|s| - |r|..]
    ensures r == [] || !IsSpace(r[0])
  {
    if s != [] && IsSpace(s[0]) then TrimLeft(s[1..]) else s
  }

  function TrimRight(s: string): (r: string)
    ensures |r| <= |s| && r == s[..|r|]
    ensures r == [] || !IsSpace(r[|r| - 1])
  {
    if s != [] && IsSpace(s[|s| - 1]) then TrimRight(s[..|s| - 1]) else s
  }

  /** Python's `str.strip()` for ASCII whitespace. */
  function Strip(s: string): string {
    TrimRight(TrimLeft(s))
  }

  /** Python's `sep.join(parts)`. */
  function Join(sep: string, parts: seq<string>): string {
    if parts == [] then ""
    else if |parts| == 1 then parts[0]
    else parts[0] + sep + Join(sep, parts[1..])
  }

  function DigitChar(d: nat): (c: char)
    requires d < 10
    ensures '0' <= c <= '9' && c as int - '0' as int == d
  {
    ('0' as int + d) as char
  }

  /** Decimal digits of a natural number, as Python's `str(n)` writes them. */
  function NatText(n: nat): (r: string)
    ensures |r| >= 1
    ensures forall i :: 0 <= i < |r| ==> '0' <= r[i] <= '9'
  {
    if n < 10 then [DigitChar(n)] else NatText(n / 10) + [DigitChar(n % 10)]
  }

  /** Python's `str(i)` for an integer. */
  function IntText(i: int): (r: string)
    ensures r != []
  {
    if i < 0 then "-" + NatText(-i) else NatText(i)
  }

  predicate Distinct<T(==)>(s: seq<T>) {
    forall i, j :: 0 <= i < j < |s| ==> s[i] != s[j]
  }

  /** The loop shape shared by the form's per-field passes: the keys are
      visited in order, `f(k, from[k])` is stored under each key `k` of
      `into`, and the pass stops at the first error. `done` is the number
      of keys stored. */
  method StoreEach<K(==), V, W, E>(keys: seq<K>, from: map<K, V>, into: map<K, W>, f: (K, V) -> Result<W, E>)
    returns (out: map<K, W>, done: nat, err: Option<E>)
    requires forall k :: k in keys ==> k in from
    ensures done <= |keys|
    ensures err.None? <==> done == |keys|
    ensures err.Some? ==> f(keys[done], from[keys[done]]) == Err(err.value)
    ensures forall j :: 0 <= j < done ==> f(keys[j], from[keys[j]]).Ok?
    ensures forall k :: k in out <==> k in into || k in keys[..done]
    ensures forall j :: 0 <= j < done ==> out[keys[j]] == f(keys[j], from[keys[j]]).value
    ensures forall k :: k in into && k !in keys[..done] ==> out[k] == into[k]
  {
    out, done := into, 0;
    while done < |keys|
      invariant done <= |keys|
      invariant forall j :: 0 <= j < done ==> f(keys[j], from[keys[j]]).Ok?
      invariant forall k :: k in out <==> k in into || k in keys[..done]
      invariant forall j :: 0 <= j < done ==> out[keys[j]] == f(keys[j], from[keys[j]]).value
      invariant forall k :: k in into && k !in keys[..done] ==> out[k] == into[k]
    {
      var key := keys[done];
      match f(key, from[key]) {
        case Err(e) =>
          return out, done, Some(e);
        case Ok(w) =>
          assert keys[..done + 1] == keys[..done] + [key];
          out := out[key := w];
      }
      done := done + 1;
    }
    err := None;
  }

  /** A pass whose step may change the whole state: the keys are visited
      in order, each step maps the state to the next one, and the pass
      stops at the first error. The result is the state reached, the
      number of steps taken and the error, if any. */
  function Fold<K, S, E>(keys: seq<K>, s: S, step: (S, K) -> Result<S, E>): (r: (S, nat, Option<E>))
    ensures r.1 <= |keys| && (r.2.None? <==> r.1 == |keys|)
    decreases |keys|
  {
    if keys == [] then (s, 0, None)
    else match step(s, keys[0])
      case Err(e) => (s, 0, Some(e))
      case Ok(next) =>
        var r := Fold(keys[1..], next, step);
        (r.0, r.1 + 1, r.2)
  }

  /** `Fold` as a loop. */
  method FoldEach<K, S, E>(keys: seq<K>, s: S, step: (S, K) -> Result<S, E>)
    returns (out: S, done: nat, err: Option<E>)
    ensures (out, done, err) == Fold(keys, s, step)
  {
    out, done := s, 0;
    assert keys[0..] == keys;
    while done < |keys|
      invariant done <= |keys|
      invariant var r := Fold(keys[done..], out, step); (r.0, r.1 + done, r.2) == Fold(keys, s, step)
    {
      assert keys[done..][1..] == keys[done + 1..];
      match step(out, keys[done]) {
        case Err(e) =>
          return out, done, Some(e);
        case Ok(next) =>
          out := next;
      }
      done := done + 1;
    }
    err := None;
  }
}
