/** The volume chart's headline figure. Its `numberAbbr` is a separate copy of the
    liquidity chart's; it is written out again here and proved to be the same function. */
module VolumeChart {
  import opened Wrappers
  import opened JsNumber
  import LiquidityChart

  function NumberAbbr(n: Number): Option<string> {
    match n
    case Finite(v) =>
      if v >= 1_000_000.0 && v < 1_000_000_000.0 then Some(LiquidityChart.Abbreviated(v / 1_000_000.0, 'M'))
      else if v >= 1_000_000_000.0 && v < 1_000_000_000_000.0 then Some(LiquidityChart.Abbreviated(v / 1_000_000_000.0, 'B'))
      else if v >= 1_000_000_000_000.0 then Some(LiquidityChart.Abbreviated(v / 1_000_000_000_000.0, 'T'))
      else None
    case PosInf => Some("InfinityT")
    case _ => None
  }

  /** The two copies agree on every input, so everything proved of the liquidity chart's
      abbreviation (nothing below a million, one suffix per range, the read-back bound)
      holds here too. */
  lemma NumberAbbrMatchesLiquidity(n: Number)
    ensures NumberAbbr(n) == LiquidityChart.NumberAbbr(n)
  {
  }

  /** Below a million, or for NaN, nothing is shown; from a million up the suffix is
      the one of the value's range. */
  lemma NumberAbbrRanges(n: Number)
    ensures NumberAbbr(n).None? <==> n.NaN? || n.NegInf? || (n.Finite? && n.value < 1_000_000.0)
    ensures n.Finite? && NumberAbbr(n).Some? ==>
      LiquidityChart.SuffixFor(n.value) == Some(NumberAbbr(n).value[|NumberAbbr(n).value| - 1])
  {
    NumberAbbrMatchesLiquidity(n);
  }

  /** The chart's initial value, the string '547792029', shows as `547.8M`. */
  lemma InitialDisplay()
    ensures NumberAbbr(Finite(547_792_029.0)) == Some("547.8M")
  {
    NumberAbbrMatchesLiquidity(Finite(547_792_029.0));
    LiquidityChart.InitialDisplay();
  }
}
