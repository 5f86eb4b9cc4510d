/**
 * The per-code screening rule of the run: the length filter, the price floor
 * and uptrend gate, the high-potential flag and the priority-ordered category
 * chain, evaluated on the last two daily bars and the final EMA-25 and EMA-50
 * values of one code.
 */
module Rule {
  import opened Wrappers

  /** One daily bar, reduced to the fields the rule reads. */
  datatype Bar = Bar(open: real, close: real, volume: int)

  /**
   * What the download yields for one code: its bars in chronological order,
   * and the final values of the EMA-25 and EMA-50 of the closes. The moving
   * averages are computed outside this model and are taken as given.
   */
  datatype Series = Series(bars: seq<Bar>, ema25: real, ema50: real)

  /** The three mutually exclusive categories of the if/elif chain. */
  datatype Category = AboveBoth | Between | AboveEma25

  /**
   * Result of screening one code: either it is dropped, or it passed the
   * gate and carries at most one category and the independent flag.
   */
  datatype Outcome = Excluded | Screened(category: Option<Category>, highPotential: bool)

  /** A series needs this many bars to be evaluated at all. */
  const MinBars: nat := 50

  /** Spans of the two moving averages. */
  const ShortSpan: nat := 25
  const LongSpan: nat := 50

  /** Codes whose last close is below this are ignored. */
  const PriceFloor: real := 0.3

  /**
   * The last value of an EMA column: the column only exists when the series
   * has at least `span` bars.
   */
  function LastEma(bars: nat, span: nat, value: real): (e: Option<real>)
    ensures e.Some? <==> bars >= span
    ensures e.Some? ==> e.value == value
  {
    if bars >= span then Some(value) else None
  }

  /** Price floor and uptrend gate: close at least 0.3 and EMA-25 strictly above EMA-50. */
  predicate PassesGate(lastClose: real, ema25: Option<real>, ema50: Option<real>) {
    lastClose >= PriceFloor && ema25.Some? && ema50.Some? && ema25.value > ema50.value
  }

  /** The seven comparisons of the high-potential flag. */
  predicate IsHighPotential(last: Bar, prev: Bar, ema25: real, ema50: real) {
    && last.close > ema25
    && last.open > ema50 && last.close > ema50
    && last.close > prev.close && last.volume > prev.volume
    && last.close > last.open && last.close > prev.open
  }

  /**
   * The priority-ordered category chain: the first condition that holds
   * decides, and none holding means no category. In an uptrend (EMA-25 above
   * EMA-50) the chain collapses to three cases on the last open and close
   * against EMA-25, and its middle branch can never be taken.
   */
  function CategoryOf(last: Bar, ema25: real, ema50: real): (c: Option<Category>)
    ensures c == Some(Between) ==> ema25 < ema50
    ensures ema25 > ema50 ==> c != Some(Between)
    ensures ema25 > ema50 ==> (c == Some(AboveBoth) <==> last.open > ema25 && last.close > ema25)
    ensures ema25 > ema50 ==> (c == Some(AboveEma25) <==> last.open <= ema25 < last.close)
    ensures ema25 > ema50 ==> (c == None <==> last.close <= ema25)
  {
    if last.open > ema25 && last.close > ema25 && last.open > ema50 && last.close > ema50 then
      Some(AboveBoth)
    else if ema25 < last.open < ema50 && ema25 < last.close < ema50 then
      Some(Between)
    else if last.close > ema25 then
      Some(AboveEma25)
    else
      None
  }

  /**
   * Screening of one code whose lookup gave `data` (None when the code is
   * missing from the download). A code is kept exactly when it has at least
   * 50 bars, its last close is at least 0.3 and its EMA-25 ends strictly
   * above its EMA-50. A kept code is flagged high potential exactly when
   * the seven comparisons on its last two bars hold, and its category is
   * decided by its last open and close against EMA-25 alone: it never falls
   * in the between-EMAs category, and a high-potential code always has one
   * of the other two.
   */
  function Classify(data: Option<Series>): (o: Outcome)
    ensures o.Screened? <==>
              && data.Some?
              && |data.value.bars| >= MinBars
              && data.value.bars[|data.value.bars| - 1].close >= PriceFloor
              && data.value.ema25 > data.value.ema50
    ensures o.Screened? ==>
              var bars := data.value.bars;
              var last, prev := bars[|bars| - 1], bars[|bars| - 2];
              var ema25, ema50 := data.value.ema25, data.value.ema50;
              && (o.highPotential <==>
                    && last.close > ema25
                    && last.open > ema50 && last.close > ema50
                    && last.close > prev.close && last.volume > prev.volume
                    && last.close > last.open && last.close > prev.open)
              && (o.category == Some(AboveBoth) <==> last.open > ema25 && last.close > ema25)
              && (o.category == Some(AboveEma25) <==> last.open <= ema25 < last.close)
              && (o.category == None <==> last.close <= ema25)
    ensures o.Screened? ==> o.category != Some(Between)
    ensures o.Screened? && o.highPotential ==> o.category == Some(AboveBoth) || o.category == Some(AboveEma25)
  {
    if data.None? then Excluded
    else
      var bars := data.value.bars;
      if |bars| < MinBars then Excluded
      else
        var last, prev := bars[|bars| - 1], bars[|bars| - 2];
        var ema25 := LastEma(|bars|, ShortSpan, data.value.ema25);
        var ema50 := LastEma(|bars|, LongSpan, data.value.ema50);
        if PassesGate(last.close, ema25, ema50) then
          Screened(CategoryOf(last, ema25.value, ema50.value),
                   IsHighPotential(last, prev, ema25.value, ema50.value))
        else
          Excluded
  }

  /**
   * A series of `n` copies of `filler` followed by `prev` and `last`: only a
   * builder of inputs for the two example lemmas below.
   */
  function EndingWith(n: nat, filler: Bar, prev: Bar, last: Bar, ema25: real, ema50: real): (s: Series)
    ensures |s.bars| == n + 2
    ensures s.bars[n] == prev && s.bars[n + 1] == last
    ensures s.ema25 == ema25 && s.ema50 == ema50
  {
    Series(seq(n, _ => filler) + [prev, last], ema25, ema50)
  }

  /**
   * EMA-25 110, EMA-50 100, open 105, close 115 after a bar with open 95,
   * close 100 and half the volume: the seven high-potential comparisons
   * hold, but the open is not above EMA-25, so the category is
   * close-above-EMA-25 and not above-both.
   */
  lemma WorkedExample()
    ensures var s := EndingWith(48, Bar(90.0, 90.0, 100), Bar(95.0, 100.0, 500), Bar(105.0, 115.0, 1000), 110.0, 100.0);
            Classify(Some(s)) == Screened(Some(AboveEma25), true)
  {
  }

  /**
   * A last close of 0.25 is dropped by the floor although the series is in
   * an uptrend, all seven high-potential comparisons hold and the last open
   * and close are above both EMAs.
   */
  lemma BelowFloorExample()
    ensures var prev, last := Bar(0.15, 0.2, 500), Bar(0.2, 0.25, 1000);
            && IsHighPotential(last, prev, 0.1, 0.05)
            && CategoryOf(last, 0.1, 0.05) == Some(AboveBoth)
            && Classify(Some(EndingWith(48, Bar(0.1, 0.1, 100), prev, last, 0.1, 0.05))) == Excluded
  {
  }
}
