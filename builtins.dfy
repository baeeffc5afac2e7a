/**
 * The few Python built-ins the validators and the query builder rely on:
 * the scalar values a caller can pass, `int(x)`, `str(x)`, `str.lower()`
 * and truthiness.
 */
module Builtins {
  import opened Wrappers

  /** A scalar Python value: None, bool, int, float (as a real) or str. */
  datatype Value = VNone | VBool(b: bool) | VInt(i: int) | VFloat(x: real) | VStr(s: string)

  // ---------------------------------------------------------------- str(int)

  function DigitChar(d: nat): char
    requires d < 10
  {
    "0123456789"[d]
  }

  function DigitValue(c: char): nat
    requires '0' <= c <= '9'
  {
    (c as int - '0' as int) as nat
  }

  predicate IsDigits(s: string)
  {
    |s| > 0 && forall i :: 0 <= i < |s| ==> '0' <= s[i] <= '9'
  }

  /** The value of a string of decimal digits, most significant first. */
  function DigitsValue(s: string): nat
    requires IsDigits(s)
    decreases |s|
  {
    var n := |s| - 1;
    if n == 0 then DigitValue(s[0])
    else DigitsValue(s[..n]) * 10 + DigitValue(s[n])
  }

  /** `str(n)` for a natural number: its decimal digits, most significant first. */
  function NatToString(n: nat): string
    decreases n
  {
    if n < 10 then [DigitChar(n)] else NatToString(n / 10) + [DigitChar(n % 10)]
  }

  /** `str(n)` is a non-empty run of digits, with no leading zero, whose value is `n`. */
  lemma {:induction false} NatToStringDigits(n: nat)
    ensures IsDigits(NatToString(n))
    ensures DigitsValue(NatToString(n)) == n
    ensures |NatToString(n)| > 1 ==> NatToString(n)[0] != '0'
    decreases n
  {
    if n >= 10 {
      NatToStringDigits(n / 10);
      var prefix := NatToString(n / 10);
      var s := NatToString(n);
      assert s == prefix + [DigitChar(n % 10)];
      assert s[..|s| - 1] == prefix;
    }
  }

  /**
   * `str(i)` for a Python int: its decimal digits with no leading zero,
   * after a minus sign when it is negative.
   */
  function IntToString(i: int): (r: string)
    ensures i >= 0 ==> IsDigits(r) && DigitsValue(r) == i && (|r| > 1 ==> r[0] != '0')
    ensures i < 0 ==> |r| > 1 && r[0] == '-' && IsDigits(r[1..]) && DigitsValue(r[1..]) == -i && (|r| > 2 ==> r[1] != '0')
  {
    var m: nat := if i < 0 then -i else i;
    NatToStringDigits(m);
    if i < 0 then
      var r := "-" + NatToString(m);
      assert r[1..] == NatToString(m);
      r
    else NatToString(m)
  }

  // ---------------------------------------------------------------- int(str)

  /**
   * The whitespace `int()` skips around its digits. An ASCII character is
   * skipped only when C's `isspace` says so: U+0009..U+000D and the space
   * (so not U+001C..U+001F, which `str.isspace()` does accept). A non-ASCII
   * character is skipped when it is Unicode whitespace: U+0085, U+00A0,
   * U+1680, U+2000..U+200A, U+2028, U+2029, U+202F, U+205F and U+3000.
   */
  predicate IsSpace(c: char)
  {
    var n := c as int;
    || 9 <= n <= 13 || n == 32
    || n == 0x85 || n == 0xA0 || n == 0x1680 || 0x2000 <= n <= 0x200A
    || n == 0x2028 || n == 0x2029 || n == 0x202F || n == 0x205F || n == 0x3000
  }

  /** Leading whitespace cut off: only whitespace is removed, and what is left starts with none. */
  function TrimLeft(s: string): (t: string)
    ensures |t| <= |s| && t == s[|s| - |t|..]
    ensures forall i :: 0 <= i < |s| - |t| ==> IsSpace(s[i])
    ensures t != [] ==> !IsSpace(t[0])
    decreases |s|
  {
    if s != [] && IsSpace(s[0]) then
      var tail := s[1..];
      var t := TrimLeft(tail);
      assert forall i :: 1 <= i < |s| - |t| ==> s[i] == tail[i - 1];
      assert s[|s| - |t|..] == tail[|tail| - |t|..];
      t
    else s
  }

  /** Trailing whitespace cut off: only whitespace is removed, and what is left ends with none. */
  function TrimRight(s: string): (t: string)
    ensures |t| <= |s| && t == s[..|t|]
    ensures forall i :: |t| <= i < |s| ==> IsSpace(s[i])
    ensures t != [] ==> !IsSpace(t[|t| - 1])
    decreases |s|
  {
    if s != [] && IsSpace(s[|s| - 1]) then
      var init := s[..|s| - 1];
      var t := TrimRight(init);
      assert forall i :: |t| <= i < |s| - 1 ==> s[i] == init[i];
      assert s[..|t|] == init[..|t|];
      t
    else s
  }

  /**
   * `int(s)` for a string: surrounding whitespace, an optional sign and at
   * least one decimal digit; anything else raises ValueError (None here).
   */
  function ParseInt(s: string): (r: Option<int>)
    ensures var t := TrimRight(TrimLeft(s));
      r.Some? <==> IsDigits(t) || (|t| > 1 && (t[0] == '-' || t[0] == '+') && IsDigits(t[1..]))
    ensures var t := TrimRight(TrimLeft(s));
      r.Some? && IsDigits(t) ==> r.value == DigitsValue(t)
    ensures var t := TrimRight(TrimLeft(s));
      r.Some? && !IsDigits(t) ==> r.value == if t[0] == '-' then -(DigitsValue(t[1..]) as int) else DigitsValue(t[1..])
  {
    ParseSigned(TrimRight(TrimLeft(s)))
  }

  /** `int()` of an already stripped string. */
  function ParseSigned(t: string): Option<int>
  {
    if |t| > 0 && (t[0] == '-' || t[0] == '+') then
      if IsDigits(t[1..]) then
        var n: int := DigitsValue(t[1..]);
        Some(if t[0] == '-' then -n else n)
      else None
    else if IsDigits(t) then Some(DigitsValue(t))
    else None
  }

  /** `int(str(i)) == i`. */
  lemma IntStringRoundTrip(i: int)
    ensures ParseInt(IntToString(i)) == Some(i)
  {
    var m: nat := if i < 0 then -i else i;
    var d := NatToString(m);
    NatToStringDigits(m);
    if i < 0 {
      assert IntToString(i) == "-" + d;
      ParseNegative(d);
    } else {
      assert IntToString(i) == d;
      ParseUnsigned(d);
    }
  }

  /** A run of digits reads back as its value. */
  lemma ParseUnsigned(d: string)
    requires IsDigits(d)
    ensures ParseInt(d) == Some(DigitsValue(d))
  {
    TrimNothing(d);
  }

  /** A minus sign and a run of digits read back as the negated value. */
  lemma ParseNegative(d: string)
    requires IsDigits(d)
    ensures ParseInt("-" + d) == Some(-(DigitsValue(d) as int))
  {
    var s := "-" + d;
    assert s[|s| - 1] == d[|d| - 1];
    TrimNothing(s);
    SignedNegative(d);
  }

  lemma SignedNegative(d: string)
    requires IsDigits(d)
    ensures ParseSigned("-" + d) == Some(-(DigitsValue(d) as int))
  {
    assert ("-" + d)[1..] == d;
  }

  lemma TrimNothing(s: string)
    requires s != [] && !IsSpace(s[0]) && !IsSpace(s[|s| - 1])
    ensures TrimRight(TrimLeft(s)) == s
  {
    assert TrimLeft(s) == s;
  }

  /** `int(" 7\n")` skips the space and the newline. */
  lemma SkipsSpaceAndNewline()
    ensures ParseInt(" 7\n") == Some(7)
  {
    var s := " 7\n";
    var t := s[1..];
    assert t[0] == '7' && !IsSpace(t[0]);
    assert TrimLeft(s) == t;
    var d := t[..1];
    assert !IsSpace(d[0]) && TrimRight(d) == d;
    assert TrimRight(t) == d;
    assert d == "7" && IsDigits(d) && DigitsValue(d) == 7;
    assert ParseSigned(d) == Some(7);
  }

  /** `int()` does not skip U+001C, which `str.isspace()` counts as whitespace. */
  lemma KeepsInformationSeparator()
    ensures ParseInt("\U{1C}2020") == None
  {
    var s := "\U{1C}2020";
    TrimNothing(s);
  }

  // ---------------------------------------------------------------- int(x)

  /** `int(x)` for a float: truncation toward zero. */
  function TruncToInt(x: real): (n: int)
    ensures x >= 0.0 ==> n as real <= x < n as real + 1.0
    ensures x < 0.0 ==> n as real - 1.0 < x <= n as real
  {
    if x >= 0.0 then x.Floor else -((-x).Floor)
  }

  /** `int(x)` for any scalar; None when Python raises ValueError or TypeError. */
  function ToInt(v: Value): (r: Option<int>)
    ensures r.None? <==> v.VNone? || (v.VStr? && ParseInt(v.s).None?)
    ensures v.VBool? ==> r == Some(if v.b then 1 else 0)
    ensures v.VInt? ==> r == Some(v.i)
    ensures v.VFloat? ==> r == Some(TruncToInt(v.x))
    ensures v.VStr? ==> r == ParseInt(v.s)
  {
    match v
    case VNone => None
    case VBool(b) => Some(if b then 1 else 0)
    case VInt(i) => Some(i)
    case VFloat(x) => Some(TruncToInt(x))
    case VStr(s) => ParseInt(s)
  }

  // ---------------------------------------------------------------- str(x)

  /**
   * `str(x)` for any scalar. `floatStr` stands for Python's shortest
   * round-tripping float repr, which is not modelled.
   */
  function ValueToString(v: Value, floatStr: real -> string): (r: string)
    ensures v.VNone? ==> r == "None"
    ensures v.VBool? ==> r == if v.b then "True" else "False"
    ensures v.VInt? ==> r == IntToString(v.i) && ParseInt(r) == Some(v.i)
    ensures v.VFloat? ==> r == floatStr(v.x)
    ensures v.VStr? ==> r == v.s
  {
    match v
    case VNone => "None"
    case VBool(b) => if b then "True" else "False"
    case VInt(i) => IntStringRoundTrip(i); IntToString(i)
    case VFloat(x) => floatStr(x)
    case VStr(s) => s
  }

  // ---------------------------------------------------------------- str.lower()

  function LowerChar(c: char): char
  {
    if 'A' <= c <= 'Z' then (c as int + 32) as char else c
  }

  /** `s.lower()`, on the ASCII letters. */
  function Lower(s: string): (t: string)
    ensures |t| == |s|
    ensures forall i :: 0 <= i < |s| ==> t[i] == LowerChar(s[i])
  {
    seq(|s|, i requires 0 <= i < |s| => LowerChar(s[i]))
  }

  lemma LowerIdempotent(s: string)
    ensures Lower(Lower(s)) == Lower(s)
  {
  }
}
