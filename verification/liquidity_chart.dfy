/** The liquidity chart's headline figure: `numberAbbr` abbreviates the value under the
    cursor with an M, B or T suffix, and shows nothing below a million. The input is the
    value after JavaScript's coercion to a number (the component's state is a string). */
module LiquidityChart {
  import opened Wrappers
  import opened JsNumber
  import DecimalText

  /** The divisor that goes with each suffix. */
  function ScaleOf(suffix: char): real {
    match suffix
    case 'M' => 1_000_000.0
    case 'B' => 1_000_000_000.0
    case _ => 1_000_000_000_000.0
  }

  /** The suffix range a finite value falls in; the three ranges are disjoint and cover
      every value from a million up. */
  function SuffixFor(v: real): (c: Option<char>)
    ensures c.None? <==> v < 1_000_000.0
    ensures c == Some('M') <==> 1_000_000.0 <= v < 1_000_000_000.0
    ensures c == Some('B') <==> 1_000_000_000.0 <= v < 1_000_000_000_000.0
    ensures c == Some('T') <==> 1_000_000_000_000.0 <= v
  {
    if v < 1_000_000.0 then None
    else if v < 1_000_000_000.0 then Some('M')
    else if v < 1_000_000_000_000.0 then Some('B')
    else Some('T')
  }

  /** `numberAbbr`: three range tests, each dividing by its scale, rounding to one decimal
      and appending its suffix; a value no branch matches (below a million, or NaN) yields
      `undefined`. The text before the suffix reads back as the scaled value to within
      half a tenth. */
  function NumberAbbr(n: Number): (r: Option<string>)
    ensures r.None? <==> n.NaN? || n.NegInf? || (n.Finite? && n.value < 1_000_000.0)
    ensures n.PosInf? ==> r == Some("InfinityT")
    ensures n.Finite? && r.Some? ==>
      && |r.value| >= 2
      && SuffixFor(n.value) == Some(r.value[|r.value| - 1])
      && DecimalText.IsTenthsText(r.value[..|r.value| - 1])
      && DecimalText.IsShortest(r.value[..|r.value| - 1])
      && (DecimalText.TenthsValue(r.value[..|r.value| - 1]) as real) / 10.0 - n.value / ScaleOf(r.value[|r.value| - 1]) <= 0.05
      && n.value / ScaleOf(r.value[|r.value| - 1]) - (DecimalText.TenthsValue(r.value[..|r.value| - 1]) as real) / 10.0 < 0.05
  {
    match n
    case Finite(v) =>
      if v >= 1_000_000.0 && v < 1_000_000_000.0 then Some(Abbreviated(v / 1_000_000.0, 'M'))
      else if v >= 1_000_000_000.0 && v < 1_000_000_000_000.0 then Some(Abbreviated(v / 1_000_000_000.0, 'B'))
      else if v >= 1_000_000_000_000.0 then Some(Abbreviated(v / 1_000_000_000_000.0, 'T'))
      else None
    case PosInf => Some("InfinityT")
    case _ => None
  }

  /** `+(m).toFixed(1) + suffix` for a non-negative mantissa `m`: the suffix comes last,
      after the shortest text of a number within half a tenth of `m`. */
  function Abbreviated(m: real, suffix: char): (s: string)
    requires m >= 0.0
    ensures |s| >= 2 && s[|s| - 1] == suffix
    ensures DecimalText.IsTenthsText(s[..|s| - 1]) && DecimalText.IsShortest(s[..|s| - 1])
    ensures (DecimalText.TenthsValue(s[..|s| - 1]) as real) / 10.0 - m <= 0.05
    ensures m - (DecimalText.TenthsValue(s[..|s| - 1]) as real) / 10.0 < 0.05
  {
    assert (DecimalText.ShortText(m) + [suffix])[..|DecimalText.ShortText(m)|] == DecimalText.ShortText(m);
    DecimalText.ShortText(m) + [suffix]
  }

  /** Before rounding, the mantissa of the M and B branches lies in [1, 1000), and that
      of the T branch is at least 1: the scaled value times the scale is the input. */
  lemma MantissaBounds(v: real)
    requires v >= 1_000_000.0
    ensures var c := SuffixFor(v).value;
      && 1.0 <= v / ScaleOf(c)
      && (c != 'T' ==> v / ScaleOf(c) < 1000.0)
      && v / ScaleOf(c) * ScaleOf(c) == v
  {
  }

  /** Rounding can carry the M branch up to a mantissa of 1000: 999,960,000 shows as
      `1000M`, not `1B`. */
  lemma RoundingReachesThousand()
    ensures NumberAbbr(Finite(999_960_000.0)) == Some("1000M")
  {
    assert 999_960_000.0 / 1_000_000.0 == 999.96;
    assert DecimalText.RoundTenths(999.96) == 10000;
    assert DecimalText.NatToString(1000) == "1000";
    assert DecimalText.TenthsText(10000) == "1000";
    assert Abbreviated(999.96, 'M') == "1000M";
  }

  /** The chart's initial value, the string '547792029', shows as `547.8M`. */
  lemma InitialDisplay()
    ensures NumberAbbr(Finite(547_792_029.0)) == Some("547.8M")
  {
    assert 547_792_029.0 / 1_000_000.0 == 547.792029;
    assert DecimalText.RoundTenths(547.792029) == 5478;
    assert DecimalText.NatToString(547) == "547";
    assert DecimalText.TenthsText(5478) == "547.8";
    assert Abbreviated(547.792029, 'M') == "547.8M";
  }
}
