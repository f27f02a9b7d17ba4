/**
 * Overview helpers: the change of the price since the day's open, the
 * 24-hour price change, the change of the holder count, and the all-zero
 * records the overview reports when its data is missing.
 *
 * Prices are exact reals; the two-decimal rounding of `toFixed` and the
 * parsing of price strings are not part of this model.
 */
module OverviewUtils {
  import opened Optional

  datatype PriceChange = PriceChange(changePercent: real, changeValue: real)

  datatype PriceData = PriceData(priceNow: real, priceOpenToday: real, changePercent: real, changeValue: real)

  datatype LpData = LpData(
    currentLpValue: real,
    currentCatAmount: real,
    currentUsdtAmount: real,
    valueAtMidnight: Option<real>,
    catAtMidnight: Option<real>,
    usdtAtMidnight: Option<real>,
    deltaValue: real,
    changePercent: real)

  datatype HoldersData = HoldersData(currentHolders: int, openHolders: int, changeAbs: int, changePct: real)

  /** Change of the price since the open, absolute and in percent of the open; no percent without a positive open. */
  function CalculatePriceChange(current: real, open: real): (r: PriceChange)
    ensures open + r.changeValue == current
    ensures open <= 0.0 ==> r.changePercent == 0.0
    ensures open > 0.0 ==> r.changePercent * open == r.changeValue * 100.0
    ensures r.changePercent > 0.0 <==> open > 0.0 && current > open
    ensures r.changePercent < 0.0 <==> open > 0.0 && current < open
  {
    var changeValue := current - open;
    var changePercent := if open > 0.0 then (changeValue / open) * 100.0 else 0.0;
    PriceChange(changePercent, changeValue)
  }

  /** Growing the open by the reported percentage gives the current price back. */
  lemma PriceChangeRoundTrip(current: real, open: real)
    requires open > 0.0
    ensures open * (1.0 + CalculatePriceChange(current, open).changePercent / 100.0) == current
  {
    var r := CalculatePriceChange(current, open);
    assert r.changePercent / 100.0 * open == r.changeValue;
  }

  /**
   * Percent change over 24 hours. A price that is missing (null or the
   * empty string, here `None`) or a past price that is not positive gives 0.
   */
  function Calculate24HPriceChange(latest: Option<real>, past: Option<real>): (r: real)
    ensures latest.None? || past.None? ==> r == 0.0
    ensures past.Some? && past.value <= 0.0 ==> r == 0.0
    ensures latest.Some? && past.Some? && past.value > 0.0 ==> r * past.value == (latest.value - past.value) * 100.0
  {
    if latest.None? || past.None? then 0.0
    else
      var current := latest.value;
      var before := past.value;
      if before <= 0.0 then 0.0
      else ((current - before) / before) * 100.0
  }

  /** The 24-hour change is the price change measured from the price 24 hours ago. */
  lemma Price24HMatchesPriceChange(latest: real, past: real)
    ensures Calculate24HPriceChange(Some(latest), Some(past)) == CalculatePriceChange(latest, past).changePercent
  {
  }

  /** Change of the holder count since the open; without an open count there is no change. */
  function CalculateHoldersChange(current: int, open: Option<int>): (r: HoldersData)
    ensures r.currentHolders == current
    ensures open.None? ==> r.openHolders == current && r.changeAbs == 0 && r.changePct == 0.0
    ensures open.Some? ==> r.openHolders == open.value && r.openHolders + r.changeAbs == current
    ensures open.Some? && open.value <= 0 ==> r.changePct == 0.0
    ensures open.Some? && open.value > 0 ==> r.changePct * (open.value as real) == (r.changeAbs as real) * 100.0
  {
    match open
    case None => HoldersData(current, current, 0, 0.0)
    case Some(o) =>
      var changeAbs := current - o;
      var changePct := if o > 0 then ((changeAbs as real) / (o as real)) * 100.0 else 0.0;
      HoldersData(current, o, changeAbs, changePct)
  }

  /** The holder change is the price change formula applied to holder counts. */
  lemma HoldersChangeMatchesPriceChange(current: int, open: int)
    ensures var h := CalculateHoldersChange(current, Some(open));
            var p := CalculatePriceChange(current as real, open as real);
            h.changeAbs as real == p.changeValue && h.changePct == p.changePercent
  {
  }

  /** The price record reported when there is no price data. */
  function CreateDefaultPriceData(): (r: PriceData)
    ensures r.priceNow == 0.0 && r.priceOpenToday == 0.0
    ensures r.changePercent == 0.0 && r.changeValue == 0.0
  {
    PriceData(0.0, 0.0, 0.0, 0.0)
  }

  /** The LP record reported when the pool cannot be read: zero amounts and no midnight snapshot. */
  function CreateDefaultLpData(): (r: LpData)
    ensures r.currentLpValue == 0.0 && r.currentCatAmount == 0.0 && r.currentUsdtAmount == 0.0
    ensures r.valueAtMidnight.None? && r.catAtMidnight.None? && r.usdtAtMidnight.None?
    ensures r.deltaValue == 0.0 && r.changePercent == 0.0
  {
    LpData(0.0, 0.0, 0.0, None, None, None, 0.0, 0.0)
  }

  /** The holder record reported when there is no holder data. */
  function CreateDefaultHoldersData(): (r: HoldersData)
    ensures r.currentHolders == 0 && r.openHolders == 0 && r.changeAbs == 0 && r.changePct == 0.0
  {
    HoldersData(0, 0, 0, 0.0)
  }

  /** The default price record is what the change formula gives for a zero price. */
  lemma DefaultPriceIsNoChange()
    ensures var p := CalculatePriceChange(0.0, 0.0);
            CreateDefaultPriceData() == PriceData(0.0, 0.0, p.changePercent, p.changeValue)
  {
  }

  /** The default holder record is what the change formula gives for zero holders, with or without an open count. */
  lemma DefaultHoldersIsNoChange()
    ensures CreateDefaultHoldersData() == CalculateHoldersChange(0, Some(0))
    ensures CreateDefaultHoldersData() == CalculateHoldersChange(0, None)
  {
  }
}
