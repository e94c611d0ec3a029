/**
 * JavaScript's `Number(text)` on the toolbar's percentage field, for the decimal
 * integer texts the field is meant to hold, and the way a number is written back
 * into a template literal (`${n}`).
 */
module NumberText {
  import opened Wrappers

  predicate IsDigit(c: char)
  {
    '0' <= c <= '9'
  }

  predicate AllDigits(s: string)
  {
    forall i :: 0 <= i < |s| ==> IsDigit(s[i])
  }

  /** The value of a decimal digit string, most significant digit first. */
  function DigitsValue(s: string): nat
    requires AllDigits(s)
  {
    if s == [] then 0
    else DigitsValue(s[..|s| - 1]) * 10 + (s[|s| - 1] as int - '0' as int)
  }

  /** The character of a single decimal digit. */
  function Digit(d: nat): (c: char)
    requires d < 10
    ensures IsDigit(c) && c as int - '0' as int == d
  {
    ('0' as int + d) as char
  }

  /** A digit string denotes zero exactly when all its digits are `0`. */
  lemma {:induction false} DigitsValueZero(s: string)
    requires AllDigits(s)
    ensures DigitsValue(s) == 0 <==> forall i :: 0 <= i < |s| ==> s[i] == '0'
  {
    if s != [] {
      var init := s[..|s| - 1];
      DigitsValueZero(init);
      assert forall i :: 0 <= i < |init| ==> init[i] == s[i];
    }
  }

  /** A decimal literal: digits, optionally after one sign, with at least one digit. */
  predicate DecimalLiteral(s: string)
  {
    (|s| > 0 && AllDigits(s)) ||
    (|s| > 1 && (s[0] == '-' || s[0] == '+') && AllDigits(s[1..]))
  }

  /**
   * `Number(s)`: the empty text is 0, a decimal literal its value, anything else
   * NaN (`None`).
   */
  function ToNumber(s: string): (r: Option<int>)
    ensures r.Some? <==> s == [] || DecimalLiteral(s)
  {
    if s == [] then Some(0)
    else if s[0] == '-' || s[0] == '+' then
      if |s| > 1 && AllDigits(s[1..]) then
        var magnitude: int := DigitsValue(s[1..]);
        Some(if s[0] == '-' then -magnitude else magnitude)
      else None
    else if AllDigits(s) then Some(DigitsValue(s))
    else None
  }

  /**
   * `Number(s)` is truthy (neither NaN nor zero) exactly when `s` is a decimal literal
   * with at least one non-zero digit.
   */
  lemma NumberTruthy(s: string)
    ensures (ToNumber(s).Some? && ToNumber(s).value != 0) <==>
      DecimalLiteral(s) && exists i :: 0 <= i < |s| && '1' <= s[i] <= '9'
  {
    if s != [] && (s[0] == '-' || s[0] == '+') {
      if |s| > 1 && AllDigits(s[1..]) {
        var d := s[1..];
        DigitsValueZero(d);
        if exists i :: 0 <= i < |s| && '1' <= s[i] <= '9' {
          var i :| 0 <= i < |s| && '1' <= s[i] <= '9';
          assert d[i - 1] == s[i];
        }
        if exists i :: 0 <= i < |d| && d[i] != '0' {
          var i :| 0 <= i < |d| && d[i] != '0';
          assert s[i + 1] == d[i];
        }
      }
    } else if AllDigits(s) {
      DigitsValueZero(s);
    }
  }

  /** `${n}` for a non-negative integer: its shortest decimal spelling. */
  function NatToDecimal(n: nat): (s: string)
    ensures |s| >= 1 && AllDigits(s)
    ensures s[0] == '0' ==> n == 0
  {
    if n < 10 then [Digit(n)] else NatToDecimal(n / 10) + [Digit(n % 10)]
  }

  /**
   * The spelling `${n}` uses: a decimal literal with no `+`, no leading zero, and no
   * `-` before a zero.
   */
  predicate Canonical(s: string)
  {
    DecimalLiteral(s) && s[0] != '+' &&
    (s[0] == '0' ==> |s| == 1) &&
    (s[0] == '-' ==> s[1] != '0')
  }

  /** `${n}` for an integer. */
  function IntToDecimal(n: int): (s: string)
    ensures DecimalLiteral(s) && Canonical(s)
    ensures s[0] == '-' <==> n < 0
  {
    if n < 0 then
      var s := "-" + NatToDecimal(-n);
      assert s[1..] == NatToDecimal(-n);
      s
    else NatToDecimal(n)
  }

  lemma {:induction false} NatDecimalRoundTrip(n: nat)
    ensures DigitsValue(NatToDecimal(n)) == n
  {
    if n >= 10 {
      var s := NatToDecimal(n);
      assert s[..|s| - 1] == NatToDecimal(n / 10);
      NatDecimalRoundTrip(n / 10);
    }
  }

  /** `-` before a digit string reads as the negated value of the digits. */
  lemma NegatedDigitsRead(d: string)
    requires |d| >= 1 && AllDigits(d)
    ensures ToNumber("-" + d) == Some(-(DigitsValue(d) as int))
  {
    assert ("-" + d)[1..] == d;
  }

  lemma NegativeDecimalRoundTrip(n: int)
    requires n < 0
    ensures ToNumber(IntToDecimal(n)) == Some(n)
  {
    var d := NatToDecimal(-n);
    NatDecimalRoundTrip(-n);
    NegatedDigitsRead(d);
    assert IntToDecimal(n) == "-" + d;
  }

  /** Reading back what `${n}` wrote gives `n` again. */
  lemma DecimalRoundTrip(n: int)
    ensures ToNumber(IntToDecimal(n)) == Some(n)
  {
    if n < 0 {
      NegativeDecimalRoundTrip(n);
    } else {
      NatDecimalRoundTrip(n);
    }
  }

  /** A decimal literal holds no space. */
  lemma DecimalLiteralHasNoSpace(d: string)
    requires DecimalLiteral(d)
    ensures ' ' !in d
  {
    forall i | 0 <= i < |d|
      ensures d[i] != ' '
    {
      if !AllDigits(d) && i > 0 {
        assert d[i] == d[1..][i - 1];
      }
    }
  }

  /** A digit string with no leading zero is what `${n}` writes for its value. */
  lemma {:induction false} UnpaddedDigitsAreWritten(s: string)
    requires |s| >= 1 && AllDigits(s) && (s[0] == '0' ==> |s| == 1)
    ensures NatToDecimal(DigitsValue(s)) == s
  {
    var init := s[..|s| - 1];
    var v := DigitsValue(s);
    if |s| > 1 {
      assert init[0] == s[0];
      UnpaddedDigitsAreWritten(init);
      DigitsValueZero(init);
      assert init[0] != '0';
      assert v / 10 == DigitsValue(init) && v % 10 == s[|s| - 1] as int - '0' as int;
      assert s == init + [s[|s| - 1]];
    }
  }

  /**
   * A canonical text is exactly what `${n}` writes for the number it denotes, so
   * `${n}` is the one canonical spelling of each integer.
   */
  lemma CanonicalIsWritten(s: string)
    requires Canonical(s)
    ensures ToNumber(s).Some? && IntToDecimal(ToNumber(s).value) == s
  {
    if s[0] == '-' {
      var d := s[1..];
      assert s == "-" + d;
      UnpaddedDigitsAreWritten(d);
      NegatedDigitsRead(d);
      DigitsValueZero(d);
      assert d[0] != '0';
    } else {
      UnpaddedDigitsAreWritten(s);
    }
  }

  /** Two canonical texts that denote the same number are the same text. */
  lemma CanonicalUnique(a: string, b: string)
    requires Canonical(a) && Canonical(b) && ToNumber(a) == ToNumber(b)
    ensures a == b
  {
    CanonicalIsWritten(a);
    CanonicalIsWritten(b);
  }
}
