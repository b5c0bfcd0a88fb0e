/** The pieces of Python's semantics that the backend's handlers lean on:
    truth values, `a or b`, `x != True`, `int(...)` and how an exception
    becomes an HTTP response. */
module Py {
  import opened Json

  /** How a handler ends abnormally: an HTTPException it raises on purpose
      (status and detail), or any other exception (AttributeError, TypeError,
      ValueError, KeyError, ...), which the framework answers with 500. */
  datatype Failure = HttpError(status: int, detail: string) | Crash

  datatype Result<+T> = Ok(value: T) | Err(failure: Failure) {
    predicate IsFailure() { Err? }

    function PropagateFailure<U>(): Result<U>
      requires Err?
    {
      Err(failure)
    }

    function Extract(): T
      requires Ok?
    {
      value
    }
  }

  /** The status code of the response the framework sends for a failure. */
  function StatusOf(f: Failure): int
  {
    match f
    case HttpError(status, _) => status
    case Crash => 500
  }

  /** `bool(v)` for a decoded JSON value. */
  predicate Truthy(v: Json)
  {
    match v
    case JNull => false
    case JBool(b) => b
    case JNum(n) => n != 0.0
    case JStr(s) => s != ""
    case JArr(items) => items != []
    case JObj(fields) => fields != map[]
  }

  /** `a or b`. */
  function Or(a: Json, b: Json): Json
  {
    if Truthy(a) then a else b
  }

  /** `v == True`: in Python `1 == True` and `1.0 == True` hold as well. */
  predicate EqualsTrue(v: Json)
  {
    v == JBool(true) || v == JNum(1.0)
  }

  /** `int(x)` for a float `x`: truncation toward zero. */
  function Truncate(x: real): (r: int)
    ensures 0.0 <= x ==> r as real <= x < r as real + 1.0
    ensures x < 0.0 ==> r as real - 1.0 < x <= r as real
  {
    if x >= 0.0 then x.Floor else -((-x).Floor)
  }

  /** The characters `str.strip()` removes that are ASCII (str.isspace). */
  predicate IsSpace(c: char)
  {
    c == ' ' || c == '\t' || c == '\n' || c == '\r' || c == '\U{0B}' || c == '\U{0C}'
    || c == '\U{1C}' || c == '\U{1D}' || c == '\U{1E}' || c == '\U{1F}'
  }

  predicate IsDigit(c: char)
  {
    '0' <= c <= '9'
  }

  function StripStart(s: string): string
  {
    if |s| > 0 && IsSpace(s[0]) then StripStart(s[1..]) else s
  }

  function StripEnd(s: string): string
  {
    if |s| > 0 && IsSpace(s[|s| - 1]) then StripEnd(s[..|s| - 1]) else s
  }

  /** A base-10 literal as `int()` reads one: digits, optionally with single
      underscores between them. */
  predicate IsDigitString(t: string)
  {
    && |t| > 0
    && IsDigit(t[0])
    && IsDigit(t[|t| - 1])
    && (forall i :: 0 <= i < |t| ==> IsDigit(t[i]) || t[i] == '_')
    && (forall i :: 0 <= i < |t| - 1 ==> !(t[i] == '_' && t[i + 1] == '_'))
  }

  /** The value of a digit string; underscores are skipped. */
  function DigitsValue(t: string): nat
  {
    if t == [] then 0
    else
      var c := t[|t| - 1];
      if IsDigit(c) then DigitsValue(t[..|t| - 1]) * 10 + (c as int - '0' as int)
      else DigitsValue(t[..|t| - 1])
  }

  /** `int(s)` for a string: surrounding whitespace, an optional sign, then a
      digit string; anything else raises ValueError (None here). */
  function ParseInt(s: string): Option<int>
  {
    var t := StripEnd(StripStart(s));
    if |t| > 0 && (t[0] == '-' || t[0] == '+') then
      if IsDigitString(t[1..]) then
        var m: int := DigitsValue(t[1..]);
        Some(if t[0] == '-' then -m else m)
      else None
    else if IsDigitString(t) then Some(DigitsValue(t))
    else None
  }

  /** `int(v)` for a decoded JSON value: booleans are 0 and 1, numbers are
      truncated, strings are parsed; None, lists and dicts raise TypeError. */
  function ToInt(v: Json): (r: Result<int>)
    ensures r.Ok? <==> v.JBool? || v.JNum? || (v.JStr? && ParseInt(v.s).Some?)
    ensures r.Err? ==> r.failure == Crash
    ensures v.JNum? ==> r == Ok(Truncate(v.n))
    ensures v.JNum? && v.n == v.n.Floor as real ==> r == Ok(v.n.Floor)
    ensures v.JStr? && ParseInt(v.s).Some? ==> r == Ok(ParseInt(v.s).value)
    ensures v.JBool? ==> r == Ok(if v.b then 1 else 0)
  {
    match v
    case JBool(b) => Ok(if b then 1 else 0)
    case JNum(n) => Ok(Truncate(n))
    case JStr(s) => if ParseInt(s).Some? then Ok(ParseInt(s).value) else Err(Crash)
    case _ => Err(Crash)
  }

  function DigitChar(d: nat): char
    requires d < 10
  {
    ('0' as int + d) as char
  }

  /** `str(n)` for a non-negative integer. */
  function Decimal(n: nat): string
  {
    if n < 10 then [DigitChar(n)] else Decimal(n / 10) + [DigitChar(n % 10)]
  }

  /** `str(i)` for any integer. */
  function Show(i: int): string
  {
    if i < 0 then "-" + Decimal(-i) else Decimal(i)
  }

  lemma {:induction false} DecimalDigits(n: nat)
    ensures forall i :: 0 <= i < |Decimal(n)| ==> IsDigit(Decimal(n)[i])
    ensures |Decimal(n)| > 0
    ensures DigitsValue(Decimal(n)) == n
  {
    if n >= 10 {
      DecimalDigits(n / 10);
      var d := Decimal(n);
      assert d[..|d| - 1] == Decimal(n / 10);
    }
  }

  /** `int(str(i)) == i`: the parser reads back what Python prints. */
  lemma ParseIntShow(i: int)
    ensures ParseInt(Show(i)) == Some(i)
  {
    var m: nat := if i < 0 then -i else i;
    DecimalDigits(m);
    var d := Decimal(m);
    assert IsDigitString(d);
    var s := Show(i);
    assert s[|s| - 1] == d[|d| - 1];
    assert StripEnd(StripStart(s)) == s by {
      assert !IsSpace(s[0]);
      assert StripStart(s) == s;
      assert !IsSpace(s[|s| - 1]);
    }
    if i < 0 {
      assert s[1..] == d;
    }
  }
}
