/**
 * Records of the per-address position and P&L engine: the swaps it replays,
 * the round records it emits, the accumulator it threads through the replay
 * and the statistics snapshot it returns.
 *
 * Token quantities (bigint in the source) are `int`; USD amounts (JS numbers)
 * are `real`, so all arithmetic here is exact.
 */
module AddressStatsTypes {
  import opened Optional

  /** The side column of a swap row; the swap query does not exclude other values. */
  datatype Side = Buy | Sell | Other

  /**
   * One swap row, with its amounts already parsed: `amountCat` is the floored
   * token quantity, `amountUsd` is None when the column is null or empty.
   */
  datatype Swap = Swap(blockTime: int, side: Side, amountCat: int, amountUsd: Option<real>)

  /** The USD value a processor uses for a swap: 0 when the column is absent. */
  function UsdOf(swap: Swap): real
  {
    match swap.amountUsd
    case None => 0.0
    case Some(v) => v
  }

  /** A nullable time column read as a truth value, as the source does: 0 counts as unset. */
  predicate IsSetTime(t: Option<int>) {
    t.Some? && t.value != 0
  }

  /** `result_type` of a round; a round with zero P&L has none. */
  datatype ResultType = Profit | Loss

  /** One row inserted into the address-round store when a round closes. */
  datatype Round = Round(
    address: string,
    roundIndex: int,
    startTime: int,
    endTime: int,
    buyVolumeCat: int,
    buyVolumeUsd: real,
    sellVolumeCat: int,
    sellVolumeUsd: real,
    realizedPnlUsd: real,
    resultType: Option<ResultType>)

  /** The value of a `CalculationState` accumulator at one moment of the replay. */
  datatype CalcState = CalcState(
    positionCat: int,
    costUsd: real,
    realizedPnlUsd: real,
    currentRoundPnlUsd: real,
    roundIndex: int,
    profitRoundCount: int,
    lossRoundCount: int,
    tradeCount: int,
    buyCount: int,
    sellCount: int,
    buyVolumeCat: int,
    sellVolumeCat: int,
    buyVolumeUsd: real,
    sellVolumeUsd: real,
    firstTradeAt: Option<int>,
    lastTradeAt: Option<int>,
    currentRoundStartTime: Option<int>,
    currentRoundBuyVolumeCat: int,
    currentRoundBuyVolumeUsd: real,
    currentRoundSellVolumeCat: int,
    currentRoundSellVolumeUsd: real)
  {
    /** A round is open exactly when its start time is recorded. */
    predicate RoundOpen() {
      currentRoundStartTime.Some?
    }

    /** Every round-scoped accumulator is zero. */
    predicate RoundAccumulatorsZero() {
      && currentRoundPnlUsd == 0.0
      && currentRoundBuyVolumeCat == 0
      && currentRoundBuyVolumeUsd == 0.0
      && currentRoundSellVolumeCat == 0
      && currentRoundSellVolumeUsd == 0.0
    }

    /**
     * The shape every reachable state has: a nonzero position only inside an
     * open round, and neither round-scoped residue nor cost outside one.
     */
    predicate Consistent() {
      && (positionCat != 0 ==> RoundOpen())
      && (!RoundOpen() ==> RoundAccumulatorsZero() && costUsd == 0.0)
    }
  }

  /** The statistics returned by one recalculation (labels included). */
  datatype AddressStats = AddressStats(
    address: string,
    tradeCount: int,
    buyCount: int,
    sellCount: int,
    buyVolumeCat: int,
    sellVolumeCat: int,
    buyVolumeUsd: real,
    sellVolumeUsd: real,
    currentPositionCat: int,
    currentCostUsd: real,
    avgBuyPrice: Option<real>,
    realizedPnlUsd: real,
    unrealizedPnlUsd: real,
    totalPnlUsd: real,
    roiTotal: Option<real>,
    profitRoundCount: int,
    lossRoundCount: int,
    currentRoundPnlUsd: real,
    firstTradeAt: Option<int>,
    lastTradeAt: Option<int>,
    isNewAddress: bool,
    isSwingTrader: bool,
    isProfitableRealized: bool,
    isProfitableTotal: bool,
    isDeepLoss: bool,
    last7dVolumeUsd: string,
    last7dTrades: int)

  /** The trailing seven-day figures the store supplies, echoed verbatim. */
  datatype Last7DStats = Last7DStats(volumeUsd: string, trades: int)

  /** The five behavioural labels. */
  datatype Labels = Labels(
    isNewAddress: bool,
    isSwingTrader: bool,
    isProfitableRealized: bool,
    isProfitableTotal: bool,
    isDeepLoss: bool)
}
