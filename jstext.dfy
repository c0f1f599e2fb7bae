/**
 * The JavaScript string built-ins the level-table parser relies on:
 * `String.prototype.split` with a one-character separator,
 * `String.prototype.trim`, `String.prototype.replace(/,/g, "")` and
 * the global `parseFloat`.  Numbers are exact reals.
 */
module JsText {
  import opened Wrappers

  /** The characters `trim` removes: ECMAScript WhiteSpace and LineTerminator. */
  predicate IsWhitespace(c: char) {
    c == ' ' || c == '\t' || c == '\n' || c == '\r' || c == '\U{000B}' || c == '\U{000C}'
    || c == '\U{00A0}' || c == '\U{1680}' || ('\U{2000}' <= c <= '\U{200A}')
    || c == '\U{2028}' || c == '\U{2029}' || c == '\U{202F}' || c == '\U{205F}'
    || c == '\U{3000}' || c == '\U{FEFF}'
  }

  predicate IsDigit(c: char) {
    '0' <= c <= '9'
  }

  // ---------------------------------------------------------------------------
  // split
  // ---------------------------------------------------------------------------

  /** Number of occurrences of `c` in `s`. */
  function Count(s: string, c: char): nat {
    if |s| == 0 then 0 else (if s[0] == c then 1 else 0) + Count(s[1..], c)
  }

  lemma {:induction false} CountAbsent(s: string, c: char)
    ensures Count(s, c) == 0 <==> c !in s
  {
    if |s| > 0 {
      CountAbsent(s[1..], c);
      assert s == [s[0]] + s[1..];
    }
  }

  /**
   * `s.split(sep)`: the maximal separator-free pieces of `s`, in order;
   * an empty string gives one empty field.
   */
  function Split(s: string, sep: char): (r: seq<string>)
    ensures |r| == Count(s, sep) + 1
    ensures forall k :: 0 <= k < |r| ==> sep !in r[k]
  {
    if |s| == 0 then [[]]
    else
      var rest := Split(s[1..], sep);
      if s[0] == sep then [[]] + rest
      else [[s[0]] + rest[0]] + rest[1..]
  }

  /** `parts.join(sep)`: the inverse of `Split`. */
  function Join(parts: seq<string>, sep: char): string
    requires |parts| > 0
  {
    if |parts| == 1 then parts[0] else parts[0] + [sep] + Join(parts[1..], sep)
  }

  /** Joining the fields of a split gives back the original string. */
  lemma {:induction false} JoinSplit(s: string, sep: char)
    ensures Join(Split(s, sep), sep) == s
  {
    if |s| > 0 {
      JoinSplit(s[1..], sep);
      var rest := Split(s[1..], sep);
      if s[0] == sep {
        assert Split(s, sep)[1..] == rest;
      } else {
        var r := Split(s, sep);
        assert r[1..] == rest[1..];
        if |rest| == 1 {
          assert r == [[s[0]] + rest[0]];
        } else {
          assert Join(rest, sep) == rest[0] + [sep] + Join(rest[1..], sep);
        }
        assert Join(r, sep) == [s[0]] + Join(rest, sep);
      }
    }
  }

  /** A separator-free string is a single field. */
  lemma {:induction false} SplitNoSeparator(a: string, sep: char)
    requires sep !in a
    ensures Split(a, sep) == [a]
  {
    if |a| > 0 {
      SplitNoSeparator(a[1..], sep);
      assert [a[0]] + a[1..] == a;
    }
  }

  /** A leading separator-free field followed by the separator. */
  lemma {:induction false} SplitAfterField(a: string, sep: char, b: string)
    requires sep !in a
    ensures Split(a + [sep] + b, sep) == [a] + Split(b, sep)
  {
    if |a| == 0 {
      assert [] + [sep] + b == [sep] + b;
      assert ([sep] + b)[1..] == b;
    } else {
      SplitAfterField(a[1..], sep, b);
      var s := a + [sep] + b;
      assert s[0] == a[0] && s[1..] == a[1..] + [sep] + b;
      assert [a[0]] + a[1..] == a;
    }
  }

  /** Splitting a join of separator-free fields gives back the fields. */
  lemma {:induction false} SplitJoin(parts: seq<string>, sep: char)
    requires |parts| > 0
    requires forall k :: 0 <= k < |parts| ==> sep !in parts[k]
    ensures Split(Join(parts, sep), sep) == parts
  {
    if |parts| == 1 {
      SplitNoSeparator(parts[0], sep);
    } else {
      SplitJoin(parts[1..], sep);
      SplitAfterField(parts[0], sep, Join(parts[1..], sep));
      assert [parts[0]] + parts[1..] == parts;
    }
  }

  // ---------------------------------------------------------------------------
  // trim
  // ---------------------------------------------------------------------------

  /** Removes leading whitespace: the suffix of `s` after its whitespace run. */
  function TrimStart(s: string): (r: string)
    ensures |r| <= |s| && r == s[|s| - |r|..]
    ensures forall k :: 0 <= k < |s| - |r| ==> IsWhitespace(s[k])
    ensures |r| > 0 ==> !IsWhitespace(r[0])
  {
    if |s| > 0 && IsWhitespace(s[0]) then TrimStart(s[1..]) else s
  }

  /**
   * The end of `s[lo..end]` once its trailing whitespace is dropped: every
   * character from there up to `end` is whitespace, and the one before it
   * (if it lies after `lo`) is not.
   */
  function TrimEndIndex(s: string, lo: nat, end: nat): (e: nat)
    requires lo <= end <= |s|
    ensures lo <= e <= end
    ensures forall k :: e <= k < end ==> IsWhitespace(s[k])
    ensures e > lo ==> !IsWhitespace(s[e - 1])
    decreases end
  {
    if end > lo && IsWhitespace(s[end - 1]) then TrimEndIndex(s, lo, end - 1) else end
  }

  /**
   * `s.trim()`: `TrimStart(s)` with its trailing whitespace run removed; the
   * result neither starts nor ends with whitespace.
   */
  function Trim(s: string): (r: string)
    ensures |r| > 0 ==> !IsWhitespace(r[0]) && !IsWhitespace(r[|r| - 1])
    ensures |r| <= |TrimStart(s)| && r == TrimStart(s)[..|r|]
    ensures forall k :: |r| <= k < |TrimStart(s)| ==> IsWhitespace(TrimStart(s)[k])
  {
    var t := TrimStart(s);
    var e := TrimEndIndex(t, 0, |t|);
    assert e > 0 ==> t[..e][0] == t[0] && t[..e][e - 1] == t[e - 1];
    t[..e]
  }

  // ---------------------------------------------------------------------------
  // replace(/,/g, "")
  // ---------------------------------------------------------------------------

  /** `s.replace(/,/g, "")`: every comma removed, the rest in order. */
  function RemoveCommas(s: string): (r: string)
    ensures ',' !in r
  {
    if |s| == 0 then []
    else if s[0] == ',' then RemoveCommas(s[1..])
    else [s[0]] + RemoveCommas(s[1..])
  }

  /** Removing commas from a comma-free string changes nothing. */
  lemma {:induction false} RemoveCommasNoop(s: string)
    requires ',' !in s
    ensures RemoveCommas(s) == s
  {
    if |s| > 0 {
      RemoveCommasNoop(s[1..]);
      assert [s[0]] + s[1..] == s;
    }
  }

  // ---------------------------------------------------------------------------
  // parseFloat
  // ---------------------------------------------------------------------------

  /** Length of the run of decimal digits at the start of `s`. */
  function DigitRun(s: string): (n: nat)
    ensures n <= |s|
    ensures forall k :: 0 <= k < n ==> IsDigit(s[k])
    ensures n < |s| ==> !IsDigit(s[n])
  {
    if |s| > 0 && IsDigit(s[0]) then 1 + DigitRun(s[1..]) else 0
  }

  predicate AllDigits(s: string) {
    forall k :: 0 <= k < |s| ==> IsDigit(s[k])
  }

  /** The value of a string of decimal digits, most significant first. */
  function DigitsValue(s: string): nat
    requires AllDigits(s)
  {
    if |s| == 0 then 0
    else 10 * DigitsValue(s[..|s| - 1]) + (s[|s| - 1] as int - '0' as int)
  }

  /** `m` times ten to the power `e`. */
  function Scale(m: real, e: int): (r: real)
    ensures m >= 0.0 ==> r >= 0.0
    decreases if e >= 0 then e else -e
  {
    if e == 0 then m
    else if e > 0 then 10.0 * Scale(m, e - 1)
    else Scale(m, e + 1) / 10.0
  }

  /**
   * The value of an ExponentPart (`e`/`E`, an optional sign, at least one
   * digit) at the start of `s`; 0 when `s` does not start with one, since then
   * `parseFloat` stops before the `e`.
   */
  function ExponentValue(s: string): int {
    if |s| >= 2 && (s[0] == 'e' || s[0] == 'E') then
      var digits := if s[1] == '+' || s[1] == '-' then s[2..] else s[1..];
      var n := DigitRun(digits);
      if n == 0 then 0
      else if s[1] == '-' then -(DigitsValue(digits[..n]) as int)
      else DigitsValue(digits[..n])
    else 0
  }

  /** `s` without one leading `+` or `-`. */
  function Unsigned(s: string): string {
    if |s| > 0 && (s[0] == '+' || s[0] == '-') then s[1..] else s
  }

  /**
   * A string `parseFloat` accepts: after leading whitespace and an optional
   * sign, a digit, or a point followed by a digit.
   */
  predicate StartsDecimal(s: string) {
    var u := Unsigned(TrimStart(s));
    (|u| > 0 && IsDigit(u[0])) || (|u| > 1 && u[0] == '.' && IsDigit(u[1]))
  }

  /** The value of `intDigits.fracDigits` times ten to the power `e`. */
  function DecimalValue(intDigits: string, fracDigits: string, e: int): real
    requires AllDigits(intDigits) && AllDigits(fracDigits)
  {
    assert AllDigits(intDigits + fracDigits) by {
      forall k | 0 <= k < |intDigits + fracDigits| ensures IsDigit((intDigits + fracDigits)[k]) {
        if k >= |intDigits| { assert (intDigits + fracDigits)[k] == fracDigits[k - |intDigits|]; }
      }
    }
    Scale(DigitsValue(intDigits + fracDigits) as real, e - |fracDigits|)
  }

  /**
   * The unsigned decimal literal at the start of `u` -- digits, an optional
   * point and digits, an optional exponent, with at least one digit before or
   * after the point -- and its value; `None` when `u` starts with none.
   */
  function UnsignedValue(u: string): (r: Option<real>)
    ensures r.Some? <==> (|u| > 0 && IsDigit(u[0])) || (|u| > 1 && u[0] == '.' && IsDigit(u[1]))
    ensures r.Some? ==> r.value >= 0.0
  {
    var n1 := DigitRun(u);
    var hasPoint := n1 < |u| && u[n1] == '.';
    var fraction := if hasPoint then u[n1 + 1..] else [];
    var n2 := DigitRun(fraction);
    if n1 == 0 && n2 == 0 then None
    else
      var rest := if hasPoint then fraction[n2..] else u[n1..];
      Some(DecimalValue(u[..n1], fraction[..n2], ExponentValue(rest)))
  }

  /**
   * `parseFloat(s)`: skip leading whitespace and an optional sign, then read
   * the longest unsigned decimal literal and ignore the rest; `None` stands
   * for NaN.
   */
  function ParseFloat(s: string): (r: Option<real>)
    ensures r.Some? <==> StartsDecimal(s)
  {
    var t := TrimStart(s);
    match UnsignedValue(Unsigned(t))
    case None => None
    case Some(m) => Some(if |t| > 0 && t[0] == '-' then -m else m)
  }

  /** A plain decimal `a.b` (digits only, `a` non-empty) parses to its exact value. */
  lemma ParseFloatDecimal(a: string, b: string)
    requires |a| > 0 && AllDigits(a) && AllDigits(b)
    ensures ParseFloat(a + "." + b) == Some(DecimalValue(a, b, 0))
  {
    var s := a + "." + b;
    assert s == a + ("." + b);
    StartsWithDigit(s);
    DigitRunExact(a, "." + b);
    var fraction := s[|a| + 1..];
    assert fraction == b;
    DigitRunExact(b, []);
    assert b + [] == b;
    assert fraction[|b|..] == [];
    assert s[..|a|] == a && fraction[..|b|] == b;
    ParseFloatAt(s, |a|, |b|);
  }

  /** A string starting with a digit has no whitespace or sign to skip. */
  lemma StartsWithDigit(s: string)
    requires |s| > 0 && IsDigit(s[0])
    ensures TrimStart(s) == s && Unsigned(s) == s
  {
    DigitNotWhitespace(s[0]);
    assert s[0] != '+' && s[0] != '-';
  }

  /** A digit is neither whitespace nor a point (a step kept apart for the solver). */
  lemma DigitNotWhitespace(c: char)
    requires IsDigit(c)
    ensures !IsWhitespace(c) && c != '.'
  {
  }

  /** A string starting with a digit is accepted by `parseFloat`. */
  lemma StartsDecimalDigit(s: string)
    requires |s| > 0 && IsDigit(s[0])
    ensures StartsDecimal(s)
  {
    StartsWithDigit(s);
  }

  /** `trim` of a string of one blank and then a non-blank starts at the second character. */
  lemma TrimLeadingBlank(s: string)
    requires |s| > 1 && IsWhitespace(s[0]) && !IsWhitespace(s[1])
    ensures |Trim(s)| > 0 && Trim(s)[0] == s[1]
  {
    assert TrimStart(s) == TrimStart(s[1..]);
    assert TrimStart(s[1..]) == s[1..];
  }

  /** `parseFloat` of a string starting with `n1` digits, a point and `n2` digits, then nothing. */
  lemma ParseFloatAt(s: string, n1: nat, n2: nat)
    requires |s| > 0 && IsDigit(s[0]) && TrimStart(s) == s && Unsigned(s) == s
    requires n1 < |s| && DigitRun(s) == n1 && s[n1] == '.'
    requires DigitRun(s[n1 + 1..]) == n2 && n1 + 1 + n2 == |s|
    ensures AllDigits(s[..n1]) && AllDigits(s[n1 + 1..])
    ensures ParseFloat(s) == Some(DecimalValue(s[..n1], s[n1 + 1..], 0))
  {
    UnsignedValueAt(s, n1, n2);
    assert s[0] != '-';
  }

  /** The unsigned literal of a string made of `n1` digits, a point and `n2` digits is all of it. */
  lemma UnsignedValueAt(s: string, n1: nat, n2: nat)
    requires n1 < |s| && DigitRun(s) == n1 && s[n1] == '.'
    requires DigitRun(s[n1 + 1..]) == n2 && n1 + 1 + n2 == |s| && (n1 > 0 || n2 > 0)
    ensures AllDigits(s[..n1]) && AllDigits(s[n1 + 1..])
    ensures UnsignedValue(s) == Some(DecimalValue(s[..n1], s[n1 + 1..], 0))
  {
    var fraction := s[n1 + 1..];
    assert AllDigits(s[..n1]) && AllDigits(fraction[..n2]);
    assert UnsignedValue(s) == Some(DecimalValue(s[..n1], fraction[..n2], ExponentValue(fraction[n2..])));
    assert fraction[n2..] == [] && fraction[..n2] == fraction;
    assert ExponentValue(fraction[n2..]) == 0;
  }

  /** A digit-only integer string `a` parses to its exact value. */
  lemma ParseFloatInteger(a: string)
    requires |a| > 0 && AllDigits(a)
    ensures ParseFloat(a) == Some(DecimalValue(a, [], 0))
  {
    StartsWithDigit(a);
    DigitRunExact(a, []);
    assert a + [] == a;
    assert a[|a|..] == [];
    assert a[..|a|] == a;
  }

  lemma {:induction false} DigitRunExact(a: string, b: string)
    requires AllDigits(a)
    requires |b| == 0 || !IsDigit(b[0])
    ensures DigitRun(a + b) == |a|
  {
    if |a| > 0 {
      assert (a + b)[1..] == a[1..] + b;
      DigitRunExact(a[1..], b);
    } else {
      assert a + b == b;
    }
  }
}
