/**
 * The derived metrics of the engine, computed once from the final state:
 * average buy price, unrealised P&L, ROI, the behavioural labels, the
 * assembled statistics record and the initial accumulator.
 * Decimal formatting (`toFixed`) of the results is not modelled.
 */
module AddressStatsUtils {
  import opened Optional
  import opened AddressStatsTypes

  /** Seconds in the seven-day window of the "new address" label. */
  const SevenDaysSeconds: int := 7 * 24 * 60 * 60

  /** Smallest combined buy and sell token volume of a swing trader. */
  const SwingTraderMinVolumeCat: int := 100

  /**
   * Average buy price of the open position: present only for a positive
   * position with a positive cost, and then the price at which the whole
   * position was bought.
   */
  function AvgBuyPrice(positionCat: int, costUsd: real): (r: Option<real>)
    ensures r.Some? <==> positionCat > 0 && costUsd > 0.0
    ensures r.Some? ==> r.value > 0.0 && r.value * (positionCat as real) == costUsd
  {
    if positionCat > 0 && costUsd > 0.0 then Some(costUsd / (positionCat as real)) else None
  }

  /**
   * Paper P&L of the open position at the latest price: zero without a
   * positive position or a price; otherwise cost plus unrealised P&L is the
   * market value of the position.
   */
  function UnrealizedPnl(positionCat: int, costUsd: real, latestPrice: Option<real>): (r: real)
    ensures positionCat <= 0 || latestPrice.None? ==> r == 0.0
    ensures positionCat > 0 && latestPrice.Some? ==>
              costUsd + r == (positionCat as real) * latestPrice.value
  {
    if positionCat > 0 && latestPrice.Some? then (positionCat as real) * latestPrice.value - costUsd
    else 0.0
  }

  /**
   * ROI in percent of the USD bought: absent when nothing was bought for a
   * positive amount; otherwise it scales back to the total P&L and has its sign.
   */
  function Roi(totalPnlUsd: real, buyVolumeUsd: real): (r: Option<real>)
    ensures r.Some? <==> buyVolumeUsd > 0.0
    ensures r.Some? ==> r.value * buyVolumeUsd == totalPnlUsd * 100.0
    ensures r.Some? ==> (r.value > 0.0 <==> totalPnlUsd > 0.0) && (r.value < 0.0 <==> totalPnlUsd < 0.0)
  {
    if buyVolumeUsd > 0.0 then Some((totalPnlUsd / buyVolumeUsd) * 100.0) else None
  }

  /** The behavioural labels at wall-clock second `now`. */
  function AddressLabels(state: CalcState, totalPnlUsd: real, now: int): (r: Labels)
    ensures r.isNewAddress <==> IsSetTime(state.firstTradeAt) && state.firstTradeAt.value >= now - SevenDaysSeconds
    ensures r.isSwingTrader <==>
              state.tradeCount >= 3 && state.buyCount >= 1 && state.sellCount >= 1
              && state.buyVolumeCat + state.sellVolumeCat >= SwingTraderMinVolumeCat
    ensures r.isProfitableRealized <==> state.realizedPnlUsd > 0.0
    ensures r.isDeepLoss <==> totalPnlUsd < 0.0 && state.positionCat > 0
    ensures r.isProfitableTotal <==> totalPnlUsd > 0.0
  {
    var day7Ago := now - SevenDaysSeconds;
    var totalVolumeCat := state.buyVolumeCat + state.sellVolumeCat;
    Labels(
      isNewAddress := if IsSetTime(state.firstTradeAt) then state.firstTradeAt.value >= day7Ago else false,
      isSwingTrader := state.tradeCount >= 3 && state.buyCount >= 1 && state.sellCount >= 1
                       && totalVolumeCat >= SwingTraderMinVolumeCat,
      isProfitableRealized := state.realizedPnlUsd > 0.0,
      isProfitableTotal := totalPnlUsd > 0.0,
      isDeepLoss := totalPnlUsd < 0.0 && state.positionCat > 0)
  }

  /** A deep-loss address still holds tokens and is never profitable in total at the same time. */
  lemma DeepLossNotProfitable(state: CalcState, totalPnlUsd: real, now: int)
    ensures var labels := AddressLabels(state, totalPnlUsd, now);
            labels.isDeepLoss ==> state.positionCat > 0 && !labels.isProfitableTotal
  {
  }

  /**
   * The statistics snapshot of a final state: counters and volumes are the
   * state's, the average price and unrealised P&L are those of the position
   * at the given price, total P&L is realised plus unrealised, ROI is taken
   * over the total P&L, and the labels are those of the state and the total.
   */
  function BuildAddressStats(address: string, state: CalcState, latestPrice: Option<real>,
                             last7d: Last7DStats, now: int): (r: AddressStats)
    ensures r.address == address
    ensures r.tradeCount == state.tradeCount && r.buyCount == state.buyCount && r.sellCount == state.sellCount
    ensures r.buyVolumeCat == state.buyVolumeCat && r.sellVolumeCat == state.sellVolumeCat
    ensures r.buyVolumeUsd == state.buyVolumeUsd && r.sellVolumeUsd == state.sellVolumeUsd
    ensures r.currentPositionCat == state.positionCat && r.currentCostUsd == state.costUsd
    ensures r.realizedPnlUsd == state.realizedPnlUsd
    ensures r.totalPnlUsd == r.realizedPnlUsd + r.unrealizedPnlUsd
    ensures r.profitRoundCount == state.profitRoundCount && r.lossRoundCount == state.lossRoundCount
    ensures r.currentRoundPnlUsd == state.currentRoundPnlUsd
    ensures r.firstTradeAt == state.firstTradeAt && r.lastTradeAt == state.lastTradeAt
    ensures r.last7dVolumeUsd == last7d.volumeUsd && r.last7dTrades == last7d.trades
    ensures r.unrealizedPnlUsd == UnrealizedPnl(state.positionCat, state.costUsd, latestPrice)
    ensures r.avgBuyPrice == AvgBuyPrice(state.positionCat, state.costUsd)
    ensures r.roiTotal == Roi(r.totalPnlUsd, state.buyVolumeUsd)
    ensures var labels := AddressLabels(state, r.totalPnlUsd, now);
            && r.isNewAddress == labels.isNewAddress && r.isSwingTrader == labels.isSwingTrader
            && r.isProfitableRealized == labels.isProfitableRealized
            && r.isProfitableTotal == labels.isProfitableTotal && r.isDeepLoss == labels.isDeepLoss
  {
    var avgBuyPrice := AvgBuyPrice(state.positionCat, state.costUsd);
    var unrealizedPnlUsd := UnrealizedPnl(state.positionCat, state.costUsd, latestPrice);
    var totalPnlUsd := state.realizedPnlUsd + unrealizedPnlUsd;
    var roiTotal := Roi(totalPnlUsd, state.buyVolumeUsd);
    var labels := AddressLabels(state, totalPnlUsd, now);
    AddressStats(
      address := address,
      tradeCount := state.tradeCount,
      buyCount := state.buyCount,
      sellCount := state.sellCount,
      buyVolumeCat := state.buyVolumeCat,
      sellVolumeCat := state.sellVolumeCat,
      buyVolumeUsd := state.buyVolumeUsd,
      sellVolumeUsd := state.sellVolumeUsd,
      currentPositionCat := state.positionCat,
      currentCostUsd := state.costUsd,
      avgBuyPrice := avgBuyPrice,
      realizedPnlUsd := state.realizedPnlUsd,
      unrealizedPnlUsd := unrealizedPnlUsd,
      totalPnlUsd := totalPnlUsd,
      roiTotal := roiTotal,
      profitRoundCount := state.profitRoundCount,
      lossRoundCount := state.lossRoundCount,
      currentRoundPnlUsd := state.currentRoundPnlUsd,
      firstTradeAt := state.firstTradeAt,
      lastTradeAt := state.lastTradeAt,
      isNewAddress := labels.isNewAddress,
      isSwingTrader := labels.isSwingTrader,
      isProfitableRealized := labels.isProfitableRealized,
      isProfitableTotal := labels.isProfitableTotal,
      isDeepLoss := labels.isDeepLoss,
      last7dVolumeUsd := last7d.volumeUsd,
      last7dTrades := last7d.trades)
  }

  /** The fresh accumulator: nothing traded, no position, no open round. */
  function CreateInitialState(): (s: CalcState)
    ensures s.Consistent() && !s.RoundOpen() && s.RoundAccumulatorsZero()
    ensures s.positionCat == 0 && s.costUsd == 0.0 && s.realizedPnlUsd == 0.0
    ensures s.tradeCount == 0 && s.buyCount == 0 && s.sellCount == 0 && s.roundIndex == 0
    ensures s.profitRoundCount == 0 && s.lossRoundCount == 0
    ensures s.buyVolumeCat == 0 && s.sellVolumeCat == 0 && s.buyVolumeUsd == 0.0 && s.sellVolumeUsd == 0.0
    ensures s.firstTradeAt.None? && s.lastTradeAt.None?
  {
    CalcState(
      positionCat := 0,
      costUsd := 0.0,
      realizedPnlUsd := 0.0,
      currentRoundPnlUsd := 0.0,
      roundIndex := 0,
      profitRoundCount := 0,
      lossRoundCount := 0,
      tradeCount := 0,
      buyCount := 0,
      sellCount := 0,
      buyVolumeCat := 0,
      sellVolumeCat := 0,
      buyVolumeUsd := 0.0,
      sellVolumeUsd := 0.0,
      firstTradeAt := None,
      lastTradeAt := None,
      currentRoundStartTime := None,
      currentRoundBuyVolumeCat := 0,
      currentRoundBuyVolumeUsd := 0.0,
      currentRoundSellVolumeCat := 0,
      currentRoundSellVolumeUsd := 0.0)
  }
}
