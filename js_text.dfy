/**
 * The JavaScript string and number built-ins the budget code leans on: `String.prototype.trim`
 * (the guard on every name field), `parseFloat` (every amount field, followed by `|| 0`) and
 * `Number.prototype.toString` (how an allocation is copied into an edit field).
 */
module JsText {
  import opened Wrappers

  /** The WhiteSpace and LineTerminator code points of ECMAScript: what `trim` strips and what `parseFloat` skips. */
  predicate IsWhitespace(c: char) {
    c == '\t' || c == '\n' || c == '\U{000B}' || c == '\U{000C}' || c == '\r' || c == ' '
    || c == '\U{00A0}' || c == '\U{1680}' || ('\U{2000}' <= c <= '\U{200A}')
    || c == '\U{2028}' || c == '\U{2029}' || c == '\U{202F}' || c == '\U{205F}'
    || c == '\U{3000}' || c == '\U{FEFF}'
  }

  /** `s.trimStart()`: the suffix left after dropping the leading whitespace. */
  function TrimStart(s: string): (r: string)
    ensures |r| <= |s| && r == s[|s| - |r|..]
    ensures forall i :: 0 <= i < |s| - |r| ==> IsWhitespace(s[i])
    ensures r != [] ==> !IsWhitespace(r[0])
  {
    if s != [] && IsWhitespace(s[0]) then TrimStart(s[1..]) else s
  }

  /** `s.trimEnd()`: the prefix left after dropping the trailing whitespace. */
  function TrimEnd(s: string): (r: string)
    ensures |r| <= |s| && r == s[..|r|]
    ensures forall i :: |r| <= i < |s| ==> IsWhitespace(s[i])
    ensures r != [] ==> !IsWhitespace(r[|r| - 1])
  {
    if s != [] && IsWhitespace(s[|s| - 1]) then TrimEnd(s[..|s| - 1]) else s
  }

  /** `r` sits in `s` at offset `i` with nothing but whitespace before and after it. */
  predicate PaddedBy(s: string, r: string, i: int) {
    0 <= i <= |s| - |r| && r == s[i..i + |r|] &&
    forall j :: 0 <= j < |s| && (j < i || i + |r| <= j) ==> IsWhitespace(s[j])
  }

  /** `s.trim()`: the one slice of `s` that neither starts nor ends with whitespace and has only whitespace around it. */
  function Trim(s: string): (r: string)
    ensures r == [] || (!IsWhitespace(r[0]) && !IsWhitespace(r[|r| - 1]))
    ensures exists i :: PaddedBy(s, r, i)
  {
    var t := TrimStart(s);
    var r := TrimEnd(t);
    assert PaddedBy(s, r, |s| - |t|) by {
      assert forall j :: |r| <= j < |t| ==> t[j] == s[|s| - |t| + j];
    }
    r
  }

  /** A name field is blank when `name.trim()` is the empty (falsy) string: exactly when every character is whitespace. */
  predicate IsBlank(s: string): (b: bool)
    ensures b <==> forall i :: 0 <= i < |s| ==> IsWhitespace(s[i])
  {
    Trim(s) == ""
  }

  predicate IsDigit(c: char) {
    '0' <= c <= '9'
  }

  predicate AllDigits(s: string) {
    forall i :: 0 <= i < |s| ==> IsDigit(s[i])
  }

  function DigitValue(c: char): (d: nat)
    requires IsDigit(c)
    ensures d < 10
  {
    c as int - '0' as int
  }

  function DigitChar(d: nat): (c: char)
    requires d < 10
    ensures IsDigit(c) && DigitValue(c) == d
  {
    ('0' as int + d) as char
  }

  /** The longest run of decimal digits at the front of `s`. */
  function DigitRun(s: string): (r: string)
    ensures |r| <= |s| && r == s[..|r|] && AllDigits(r)
    ensures |r| < |s| ==> !IsDigit(s[|r|])
  {
    if s != [] && IsDigit(s[0]) then [s[0]] + DigitRun(s[1..]) else []
  }

  /** The value of a digit string read as a whole number, most significant digit first. */
  function WholeValue(ds: string): nat
    requires AllDigits(ds)
  {
    if ds == [] then 0 else WholeValue(ds[..|ds| - 1]) * 10 + DigitValue(ds[|ds| - 1])
  }

  /** The value of the digit string written after a decimal point. */
  function FractionValue(ds: string): real
    requires AllDigits(ds)
  {
    if ds == [] then 0.0 else (DigitValue(ds[0]) as real + FractionValue(ds[1..])) / 10.0
  }

  /**
   * What `parseFloat` reads once leading whitespace is gone: an optional sign, then the longest
   * prefix of the form `digits [ "." digits ]` or `"." digits`.
   */
  function ParseDecimal(t: string): (r: Option<real>)
    ensures (forall i :: 0 <= i < |t| ==> !IsDigit(t[i])) ==> r == None
  {
    if t != [] && t[0] == '-' then
      match ParseUnsigned(t[1..])
      case Some(v) => Some(-v)
      case None => None
    else if t != [] && t[0] == '+' then ParseUnsigned(t[1..])
    else ParseUnsigned(t)
  }

  /** The unsigned decimal literal at the front of `t`: `None` when it has no digit. */
  function ParseUnsigned(t: string): (r: Option<real>)
    ensures (forall i :: 0 <= i < |t| ==> !IsDigit(t[i])) ==> r == None
  {
    var whole := DigitRun(t);
    var rest := t[|whole|..];
    var fraction := if rest != [] && rest[0] == '.' then DigitRun(rest[1..]) else [];
    if whole == [] && fraction == [] then None
    else
      assert whole != [] ==> IsDigit(t[0]);
      assert fraction != [] ==> IsDigit(t[|t| - |rest| + 1]);
      Some(WholeValue(whole) as real + FractionValue(fraction))
  }

  /** `parseFloat(s)`: `None` stands for `NaN`, the result when no digit is found where a number must start. */
  function ParseFloat(s: string): (r: Option<real>)
    ensures (forall i :: 0 <= i < |s| ==> !IsDigit(s[i])) ==> r == None
  {
    var t := TrimStart(s);
    assert forall i :: 0 <= i < |t| ==> t[i] == s[|s| - |t| + i];
    ParseDecimal(t)
  }

  /** `parseFloat(s) || 0`: a failed parse (NaN) counts as zero. */
  function ParseFloatOrZero(s: string): (r: real)
    ensures ParseFloat(s).Some? ==> r == ParseFloat(s).value
    ensures ParseFloat(s).None? ==> r == 0.0
    ensures (forall i :: 0 <= i < |s| ==> !IsDigit(s[i])) ==> r == 0.0
  {
    ParseFloat(s).GetOr(0.0)
  }

  /** Leading whitespace never changes what `parseFloat` reads. */
  lemma ParseFloatSkipsWhitespace(w: string, s: string)
    requires forall i :: 0 <= i < |w| ==> IsWhitespace(w[i])
    ensures ParseFloat(w + s) == ParseFloat(s)
  {
    TrimStartSkips(w, s);
  }


  lemma {:induction false} TrimStartSkips(w: string, s: string)
    requires forall i :: 0 <= i < |w| ==> IsWhitespace(w[i])
    ensures TrimStart(w + s) == TrimStart(s)
  {
    if w != [] {
      assert (w + s)[1..] == w[1..] + s;
      TrimStartSkips(w[1..], s);
    } else {
      assert w + s == s;
    }
  }

  // ---- Number.prototype.toString ----

  /** The decimal digits of a whole number, most significant first. */
  function NatToString(n: nat): (r: string)
    ensures r != [] && AllDigits(r)
  {
    if n < 10 then [DigitChar(n)] else NatToString(n / 10) + [DigitChar(n % 10)]
  }

  /** Most digits written after the decimal point. */
  const FractionDigitLimit: nat := 20

  /** The digits of a fraction `0 <= f < 1`, stopping as soon as nothing is left of it. */
  function FractionDigits(f: real, fuel: nat): (r: string)
    requires 0.0 <= f < 1.0
    ensures AllDigits(r)
    decreases fuel
  {
    if f == 0.0 || fuel == 0 then []
    else
      var d := (f * 10.0).Floor;
      [DigitChar(d)] + FractionDigits(f * 10.0 - d as real, fuel - 1)
  }

  /** The rendering of a non-negative number: its whole part, then `.` and its fraction digits if it has any. */
  function NonNegativeToString(x: real): (r: string)
    requires x >= 0.0
    ensures r != [] && IsDigit(r[0])
  {
    var whole := x.Floor;
    var f := x - whole as real;
    NatToString(whole) + (if f == 0.0 then "" else "." + FractionDigits(f, FractionDigitLimit))
  }

  /** `x.toString()` for a number with a finite decimal expansion. */
  function NumberToString(x: real): (r: string)
    ensures r != []
    ensures r[0] == '-' <==> x < 0.0
    ensures x >= 0.0 ==> IsDigit(r[0])
    ensures x < 0.0 ==> |r| > 1 && IsDigit(r[1])
  {
    if x < 0.0 then "-" + NonNegativeToString(-x) else NonNegativeToString(x)
  }

  /** An amount in whole cents, as every amount entered through a `step="0.01"` field is. */
  predicate IsWholeCents(x: real) {
    (x * 100.0).Floor as real == x * 100.0
  }

  /** Rendering a whole-cents amount and parsing it back gives the amount again. */
  lemma NumberToStringRoundTrip(x: real)
    requires IsWholeCents(x)
    ensures ParseFloat(NumberToString(x)) == Some(x)
  {
    var s := NumberToString(x);
    if x < 0.0 {
      NegatedWholeCents(x);
      NonNegativeRoundTrip(-x);
      var t := NonNegativeToString(-x);
      assert s == "-" + t;
      assert s[1..] == t;
      assert ParseDecimal(s) == Some(x);
    } else {
      NonNegativeRoundTrip(x);
      assert ParseDecimal(s) == Some(x);
    }
    assert TrimStart(s) == s by { assert !IsWhitespace(s[0]); }
  }

  lemma NegatedWholeCents(x: real)
    requires IsWholeCents(x)
    ensures IsWholeCents(-x)
  {
    var m := (x * 100.0).Floor;
    assert -x * 100.0 == (-m) as real;
  }

  /** The unsigned case of the round trip: the rendering starts with a digit and reads back exactly. */
  lemma NonNegativeRoundTrip(x: real)
    requires x >= 0.0 && IsWholeCents(x)
    ensures var t := NonNegativeToString(x); t != [] && IsDigit(t[0]) && ParseUnsigned(t) == Some(x)
  {
    var n := x.Floor;
    var f := x - n as real;
    var w := NatToString(n);
    var t := NonNegativeToString(x);
    WholeValueOfNatToString(n);
    if f == 0.0 {
      DigitRunOfDigits(w, "");
      assert t == w + "";
    } else {
      var ds := FractionDigits(f, FractionDigitLimit);
      var tail := "." + ds;
      assert t == w + tail;
      DigitRunOfDigits(w, tail);
      assert t[|w|..] == tail;
      DigitRunOfDigits(ds, "");
      assert ds + "" == ds;
      assert tail[1..] == ds;
      FractionOfWholeCents(x, n);
      CentsFractionEnds(f);
      FractionRoundTrip(f, FractionDigitLimit);
    }
  }

  /** What is left of a whole-cents amount after its whole part is still in whole cents. */
  lemma FractionOfWholeCents(x: real, n: int)
    requires IsWholeCents(x)
    ensures ((x - n as real) * 100.0).Floor as real == (x - n as real) * 100.0
  {
    var m := (x * 100.0).Floor;
    var cents := x * 100.0;
    assert cents == m as real;
    var whole := n as real * 100.0;
    assert whole == (100 * n) as real;
    var k := m - 100 * n;
    assert cents - whole == k as real;
    assert (x - n as real) * 100.0 == cents - whole;
    assert (k as real).Floor == k;
  }

  lemma {:induction false} WholeValueOfNatToString(n: nat)
    ensures WholeValue(NatToString(n)) == n
  {
    var s := NatToString(n);
    if n >= 10 {
      WholeValueOfNatToString(n / 10);
      assert s[..|s| - 1] == NatToString(n / 10);
    }
  }

  /** The digit run at the front of `ds + rest` is `ds` when `rest` does not start with a digit. */
  lemma {:induction false} DigitRunOfDigits(ds: string, rest: string)
    requires AllDigits(ds)
    requires rest != [] ==> !IsDigit(rest[0])
    ensures DigitRun(ds + rest) == ds
  {
    if ds == [] {
      assert ds + rest == rest;
    } else {
      assert (ds + rest)[1..] == ds[1..] + rest;
      DigitRunOfDigits(ds[1..], rest);
    }
  }

  /** The fraction digits run out within `fuel` steps. */
  ghost predicate FractionEnds(f: real, fuel: nat)
    requires 0.0 <= f < 1.0
    decreases fuel
  {
    f == 0.0 || (fuel > 0 && FractionEnds(f * 10.0 - (f * 10.0).Floor as real, fuel - 1))
  }

  /** When the digits run out, reading them back gives the fraction exactly. */
  lemma {:induction false} FractionRoundTrip(f: real, fuel: nat)
    requires 0.0 <= f < 1.0 && FractionEnds(f, fuel)
    ensures FractionValue(FractionDigits(f, fuel)) == f
    decreases fuel
  {
    if f != 0.0 {
      var d := (f * 10.0).Floor;
      var g := f * 10.0 - d as real;
      FractionRoundTrip(g, fuel - 1);
      var ds := FractionDigits(f, fuel);
      assert ds[1..] == FractionDigits(g, fuel - 1);
    }
  }

  /** A fraction in whole cents has at most two digits. */
  lemma CentsFractionEnds(f: real)
    requires 0.0 <= f < 1.0 && (f * 100.0).Floor as real == f * 100.0
    ensures FractionEnds(f, FractionDigitLimit)
  {
    var m := (f * 100.0).Floor;
    if f != 0.0 {
      var d := (f * 10.0).Floor;
      var g := f * 10.0 - d as real;
      assert g * 10.0 == (m - 10 * d) as real;
      var e := (g * 10.0).Floor;
      assert e == m - 10 * d;
      var h := g * 10.0 - e as real;
      assert h == 0.0;
      assert FractionEnds(h, FractionDigitLimit - 2);
      assert FractionEnds(g, FractionDigitLimit - 1);
    }
  }
}
