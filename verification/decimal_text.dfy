/** Decimal text for non-negative numbers, as the charts produce it with
    `+(x).toFixed(1)` followed by string concatenation: round to one decimal place, then
    print the shortest form (no trailing `.0`). Exponent notation, which JavaScript uses
    from 1e21 upwards, is not modelled. */
module DecimalText {

  predicate IsDigit(c: char) {
    '0' <= c <= '9'
  }

  predicate AllDigits(s: string) {
    forall i :: 0 <= i < |s| ==> IsDigit(s[i])
  }

  function DigitChar(d: nat): (c: char)
    requires d < 10
    ensures IsDigit(c)
  {
    ('0' as int + d) as char
  }

  function DigitValue(c: char): (d: nat)
    requires IsDigit(c)
    ensures d < 10 && DigitChar(d) == c
  {
    c as int - '0' as int
  }

  /** The decimal digits of `n`, most significant first, with no leading zero. */
  function NatToString(n: nat): (s: string)
    ensures |s| >= 1 && AllDigits(s)
    ensures s[0] != '0' || n == 0
    ensures n < 10 <==> |s| == 1
  {
    if n < 10 then [DigitChar(n)] else NatToString(n / 10) + [DigitChar(n % 10)]
  }

  /** The number a string of decimal digits denotes (the inverse of NatToString). */
  function DigitsValue(s: string): nat
    requires AllDigits(s)
  {
    if s == [] then 0 else DigitsValue(s[..|s| - 1]) * 10 + DigitValue(s[|s| - 1])
  }

  lemma {:induction false} NatToStringRoundTrip(n: nat)
    ensures DigitsValue(NatToString(n)) == n
  {
    if n >= 10 {
      var s := NatToString(n);
      assert s[..|s| - 1] == NatToString(n / 10);
      NatToStringRoundTrip(n / 10);
    }
  }

  /** NatToString is injective: distinct numbers never print the same. */
  lemma NatToStringInjective(m: nat, n: nat)
    ensures NatToString(m) == NatToString(n) ==> m == n
  {
    NatToStringRoundTrip(m);
    NatToStringRoundTrip(n);
  }

  /** A digit string without a leading zero is its own number's text. */
  lemma {:induction false} DigitsRoundTrip(s: string)
    requires |s| >= 1 && AllDigits(s)
    requires s[0] != '0' || |s| == 1
    ensures NatToString(DigitsValue(s)) == s
  {
    if |s| == 1 {
      assert s[..0] == [];
    } else {
      var p := s[..|s| - 1];
      DigitsPositive(p);
      DigitsRoundTrip(p);
      var n := DigitsValue(s);
      assert n / 10 == DigitsValue(p) && n % 10 == DigitValue(s[|s| - 1]);
      assert s == p + [s[|s| - 1]];
    }
  }

  /** A digit string that starts with a non-zero digit denotes a positive number. */
  lemma {:induction false} DigitsPositive(s: string)
    requires |s| >= 1 && AllDigits(s) && s[0] != '0'
    ensures DigitsValue(s) > 0
  {
    if |s| > 1 {
      DigitsPositive(s[..|s| - 1]);
    }
  }

  /** A shortest-form tenths text is determined by the value it reads back as: it is the
      text TenthsText prints for that value. */
  lemma ShortestTenthsTextUnique(s: string)
    requires IsTenthsText(s) && IsShortest(s)
    ensures s == TenthsText(TenthsValue(s))
  {
    var t := TenthsValue(s);
    if |s| >= 2 && s[|s| - 2] == '.' {
      var w := s[..|s| - 2];
      assert w[0] == s[0];
      assert w[0] != '0' || |w| == 1 by {
        if |w| > 1 { assert s[1] == w[1]; assert IsDigit(w[1]); }
      }
      DigitsRoundTrip(w);
      var d := DigitValue(s[|s| - 1]);
      assert d != 0;
      assert t / 10 == DigitsValue(w) && t % 10 == d;
      assert s == w + "." + [DigitChar(d)];
    } else {
      DigitsRoundTrip(s);
      assert t / 10 == DigitsValue(s) && t % 10 == 0;
    }
  }

  /** `x.toFixed(1)` for `x >= 0`, as a count of tenths: the integer nearest to `10x`,
      the larger one on a tie. */
  function RoundTenths(x: real): (t: nat)
    requires x >= 0.0
    ensures (t as real) / 10.0 - x <= 0.05
    ensures x - (t as real) / 10.0 < 0.05
  {
    (x * 10.0 + 0.5).Floor
  }

  /** The shortest form JavaScript prints a number in: no leading zero before other
      integer digits, and no `.0` tail. */
  predicate IsShortest(s: string) {
    && |s| >= 1
    && (s[0] != '0' || |s| == 1 || s[1] == '.')
    && !(|s| >= 2 && s[|s| - 2] == '.' && s[|s| - 1] == '0')
  }

  /** The shortest text of the number `t / 10`: integer digits, then `.d` only when the
      tenths digit is not zero. */
  function TenthsText(t: nat): (s: string)
    ensures |s| >= 1
    ensures s[|s| - 1] != '.'
    ensures t % 10 != 0 <==> (|s| >= 2 && s[|s| - 2] == '.')
    ensures IsShortest(s)
  {
    NatToString(t / 10) + (if t % 10 == 0 then "" else "." + [DigitChar(t % 10)])
  }

  /** The shape of a TenthsText result: at least one digit, optionally followed by `.`
      and one digit. */
  predicate IsTenthsText(s: string) {
    if |s| >= 2 && s[|s| - 2] == '.' then |s| >= 3 && AllDigits(s[..|s| - 2]) && IsDigit(s[|s| - 1])
    else |s| >= 1 && AllDigits(s)
  }

  /** Reads a TenthsText back as a count of tenths. */
  function TenthsValue(s: string): nat
    requires IsTenthsText(s)
  {
    if |s| >= 2 && s[|s| - 2] == '.' then DigitsValue(s[..|s| - 2]) * 10 + DigitValue(s[|s| - 1])
    else DigitsValue(s) * 10
  }

  /** Printing a count of tenths loses nothing: reading the text back gives the count. */
  lemma TenthsTextRoundTrip(t: nat)
    ensures IsTenthsText(TenthsText(t))
    ensures TenthsValue(TenthsText(t)) == t
  {
    var s := TenthsText(t);
    var whole := NatToString(t / 10);
    NatToStringRoundTrip(t / 10);
    if t % 10 == 0 {
      assert s == whole;
      assert !(|s| >= 2 && s[|s| - 2] == '.');
    } else {
      assert s[..|s| - 2] == whole;
    }
  }

  /** What `+(x).toFixed(1)` prints for `x >= 0`: the text is in shortest form and reads
      back as `x` rounded to the nearest tenth. */
  function ShortText(x: real): (s: string)
    requires x >= 0.0
    ensures IsTenthsText(s) && IsShortest(s)
    ensures (TenthsValue(s) as real) / 10.0 - x <= 0.05
    ensures x - (TenthsValue(s) as real) / 10.0 < 0.05
  {
    var t := RoundTenths(x);
    TenthsTextRoundTrip(t);
    TenthsText(t)
  }
}
