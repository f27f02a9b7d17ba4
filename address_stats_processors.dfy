/**
 * The processors that fold one swap into the shared accumulator.
 *
 * Each processor is a method that updates a `CalculationState` object in
 * place, as the source does, and is specified by a transition function on
 * the accumulator's value (`BuyStep`, `SellStep`, `EndRoundStep`,
 * `TimeStep`). The properties of the processors are stated on those
 * functions. The round record that the source inserts into the store is the
 * value `EndRound` returns.
 */
module AddressStatsProcessors {
  import opened Optional
  import opened AddressStatsTypes

  /** Clamp at zero, as `Math.max(0, x)`. */
  function Max0(x: real): real {
    if x < 0.0 then 0.0 else x
  }

  /** The round classification: profit above zero, loss below, none at exactly zero. */
  function ResultOf(pnl: real): (t: Option<ResultType>)
    ensures t == Some(Profit) <==> pnl > 0.0
    ensures t == Some(Loss) <==> pnl < 0.0
    ensures t.None? <==> pnl == 0.0
  {
    if pnl > 0.0 then Some(Profit) else if pnl < 0.0 then Some(Loss) else None
  }

  /** True when a sell has a tracked position to realise P&L against. */
  predicate TracksSell(s: CalcState) {
    s.positionCat != 0 && s.costUsd != 0.0
  }

  /** The pooled cost that a sell of `qty` tokens takes out of the position at the average price. */
  function CostForSell(s: CalcState, qty: int): real
    requires s.positionCat != 0
  {
    (s.costUsd / (s.positionCat as real)) * (qty as real)
  }

  /**
   * A buy: counts and volumes grow by the bought amounts, the pooled position
   * and cost grow by the same, a round opens when the position is zero and
   * none is open, and the open round's buy accumulators grow.
   */
  function BuyStep(s: CalcState, swap: Swap): (r: CalcState)
    ensures r.buyCount == s.buyCount + 1
    ensures r.buyVolumeCat == s.buyVolumeCat + swap.amountCat && r.buyVolumeUsd == s.buyVolumeUsd + UsdOf(swap)
    ensures r.positionCat == s.positionCat + swap.amountCat && r.costUsd == s.costUsd + UsdOf(swap)
    ensures s.positionCat == 0 && !s.RoundOpen() ==>
              && r.roundIndex == s.roundIndex + 1
              && r.currentRoundStartTime == Some(swap.blockTime)
              && r.currentRoundPnlUsd == 0.0
              && r.currentRoundBuyVolumeCat == swap.amountCat && r.currentRoundBuyVolumeUsd == UsdOf(swap)
              && r.currentRoundSellVolumeCat == 0 && r.currentRoundSellVolumeUsd == 0.0
    ensures s.RoundOpen() ==>
              && r.roundIndex == s.roundIndex
              && r.currentRoundStartTime == s.currentRoundStartTime
              && r.currentRoundPnlUsd == s.currentRoundPnlUsd
              && r.currentRoundBuyVolumeCat == s.currentRoundBuyVolumeCat + swap.amountCat
              && r.currentRoundBuyVolumeUsd == s.currentRoundBuyVolumeUsd + UsdOf(swap)
              && r.currentRoundSellVolumeCat == s.currentRoundSellVolumeCat
              && r.currentRoundSellVolumeUsd == s.currentRoundSellVolumeUsd
    ensures s.positionCat != 0 && !s.RoundOpen() ==>
              r.(buyCount := s.buyCount, buyVolumeCat := s.buyVolumeCat, buyVolumeUsd := s.buyVolumeUsd,
                 positionCat := s.positionCat, costUsd := s.costUsd) == s
    ensures r.(buyCount := s.buyCount, buyVolumeCat := s.buyVolumeCat, buyVolumeUsd := s.buyVolumeUsd,
               positionCat := s.positionCat, costUsd := s.costUsd, roundIndex := s.roundIndex,
               currentRoundStartTime := s.currentRoundStartTime, currentRoundPnlUsd := s.currentRoundPnlUsd,
               currentRoundBuyVolumeCat := s.currentRoundBuyVolumeCat,
               currentRoundBuyVolumeUsd := s.currentRoundBuyVolumeUsd,
               currentRoundSellVolumeCat := s.currentRoundSellVolumeCat,
               currentRoundSellVolumeUsd := s.currentRoundSellVolumeUsd) == s
    ensures s.Consistent() ==> r.Consistent() && r.RoundOpen()
  {
    var amountCat := swap.amountCat;
    var amountUsd := UsdOf(swap);
    var counted := s.(buyCount := s.buyCount + 1,
                      buyVolumeCat := s.buyVolumeCat + amountCat,
                      buyVolumeUsd := s.buyVolumeUsd + amountUsd);
    var started :=
      if counted.positionCat == 0 && counted.currentRoundStartTime.None? then
        counted.(roundIndex := counted.roundIndex + 1,
                 currentRoundStartTime := Some(swap.blockTime),
                 currentRoundPnlUsd := 0.0,
                 currentRoundBuyVolumeCat := 0,
                 currentRoundBuyVolumeUsd := 0.0,
                 currentRoundSellVolumeCat := 0,
                 currentRoundSellVolumeUsd := 0.0)
      else counted;
    var held := started.(positionCat := started.positionCat + amountCat,
                        costUsd := started.costUsd + amountUsd);
    if held.currentRoundStartTime.Some? then
      held.(currentRoundBuyVolumeCat := held.currentRoundBuyVolumeCat + amountCat,
            currentRoundBuyVolumeUsd := held.currentRoundBuyVolumeUsd + amountUsd)
    else held
  }

  /**
   * A sell: counts and volumes always grow. Without a tracked position
   * nothing else changes. Otherwise the sell realises its USD minus its share
   * of the pooled cost into both P&L fields, the position drops by the sold
   * quantity, the cost drops by that share but never below zero, and the
   * open round's sell accumulators grow.
   */
  function SellStep(s: CalcState, swap: Swap): (r: CalcState)
    ensures r.sellCount == s.sellCount + 1
    ensures r.sellVolumeCat == s.sellVolumeCat + swap.amountCat && r.sellVolumeUsd == s.sellVolumeUsd + UsdOf(swap)
    ensures !TracksSell(s) ==>
              r == s.(sellCount := r.sellCount, sellVolumeCat := r.sellVolumeCat, sellVolumeUsd := r.sellVolumeUsd)
    ensures TracksSell(s) ==>
              var pnl := UsdOf(swap) - CostForSell(s, swap.amountCat);
              && r.realizedPnlUsd == s.realizedPnlUsd + pnl
              && r.currentRoundPnlUsd == s.currentRoundPnlUsd + pnl
              && r.positionCat == s.positionCat - swap.amountCat
              && r.costUsd == Max0(s.costUsd - CostForSell(s, swap.amountCat))
              && r.currentRoundStartTime == s.currentRoundStartTime
    ensures TracksSell(s) && s.RoundOpen() ==>
              && r.currentRoundSellVolumeCat == s.currentRoundSellVolumeCat + swap.amountCat
              && r.currentRoundSellVolumeUsd == s.currentRoundSellVolumeUsd + UsdOf(swap)
    ensures !TracksSell(s) || !s.RoundOpen() ==>
              r.currentRoundSellVolumeCat == s.currentRoundSellVolumeCat
              && r.currentRoundSellVolumeUsd == s.currentRoundSellVolumeUsd
    ensures r.buyVolumeCat == s.buyVolumeCat && r.buyVolumeUsd == s.buyVolumeUsd
    ensures r.currentRoundBuyVolumeCat == s.currentRoundBuyVolumeCat
            && r.currentRoundBuyVolumeUsd == s.currentRoundBuyVolumeUsd
    ensures s.costUsd >= 0.0 ==> r.costUsd >= 0.0
    ensures TracksSell(s) && swap.amountCat == s.positionCat ==> r.positionCat == 0 && r.costUsd == 0.0
    ensures r.roundIndex == s.roundIndex && r.currentRoundStartTime == s.currentRoundStartTime
    ensures r.buyCount == s.buyCount && r.tradeCount == s.tradeCount
    ensures r.profitRoundCount == s.profitRoundCount && r.lossRoundCount == s.lossRoundCount
    ensures r.firstTradeAt == s.firstTradeAt && r.lastTradeAt == s.lastTradeAt
    ensures s.Consistent() ==> r.Consistent()
  {
    var amountCat := swap.amountCat;
    var amountUsd := UsdOf(swap);
    var counted := s.(sellCount := s.sellCount + 1,
                      sellVolumeCat := s.sellVolumeCat + amountCat,
                      sellVolumeUsd := s.sellVolumeUsd + amountUsd);
    if counted.positionCat == 0 || counted.costUsd == 0.0 then counted
    else
      var avgBuyPrice := counted.costUsd / (counted.positionCat as real);
      var costForThisSell := avgBuyPrice * (amountCat as real);
      var realizedPnlForThisSell := amountUsd - costForThisSell;
      var realized := counted.(realizedPnlUsd := counted.realizedPnlUsd + realizedPnlForThisSell,
                               currentRoundPnlUsd := counted.currentRoundPnlUsd + realizedPnlForThisSell);
      var reduced := realized.(positionCat := realized.positionCat - amountCat,
                               costUsd := Max0(realized.costUsd - costForThisSell));
      if reduced.currentRoundStartTime.Some? then
        reduced.(currentRoundSellVolumeCat := reduced.currentRoundSellVolumeCat + amountCat,
                 currentRoundSellVolumeUsd := reduced.currentRoundSellVolumeUsd + amountUsd)
      else reduced
  }

  /**
   * Closing the open round at `swap`: a no-op without an open round.
   * Otherwise the round is classified by the sign of its P&L, only a profit
   * or a loss bumps its counter, a record carrying the round number, the
   * round's accumulators and the closing swap's time is emitted, and
   * afterwards no round is open, every round accumulator is zero and so is
   * the cost.
   */
  function EndRoundStep(address: string, s: CalcState, swap: Swap): (r: (CalcState, Option<Round>))
    ensures !s.RoundOpen() ==> r == (s, None)
    ensures s.RoundOpen() ==>
              && r.1 == Some(Round(address, s.roundIndex, s.currentRoundStartTime.value, swap.blockTime,
                                   s.currentRoundBuyVolumeCat, s.currentRoundBuyVolumeUsd,
                                   s.currentRoundSellVolumeCat, s.currentRoundSellVolumeUsd,
                                   s.currentRoundPnlUsd, ResultOf(s.currentRoundPnlUsd)))
              && r.0.profitRoundCount == s.profitRoundCount + (if s.currentRoundPnlUsd > 0.0 then 1 else 0)
              && r.0.lossRoundCount == s.lossRoundCount + (if s.currentRoundPnlUsd < 0.0 then 1 else 0)
              && !r.0.RoundOpen() && r.0.RoundAccumulatorsZero() && r.0.costUsd == 0.0
              && r.0.positionCat == s.positionCat && r.0.roundIndex == s.roundIndex
              && r.0.realizedPnlUsd == s.realizedPnlUsd
              && r.0.tradeCount == s.tradeCount && r.0.buyCount == s.buyCount && r.0.sellCount == s.sellCount
              && r.0.firstTradeAt == s.firstTradeAt && r.0.lastTradeAt == s.lastTradeAt
              && r.0.buyVolumeCat == s.buyVolumeCat && r.0.buyVolumeUsd == s.buyVolumeUsd
              && r.0.sellVolumeCat == s.sellVolumeCat && r.0.sellVolumeUsd == s.sellVolumeUsd
    ensures s.Consistent() && s.positionCat == 0 ==> r.0.Consistent()
  {
    if s.currentRoundStartTime.None? then (s, None)
    else
      var resultType := ResultOf(s.currentRoundPnlUsd);
      var counted :=
        if resultType == Some(Profit) then s.(profitRoundCount := s.profitRoundCount + 1)
        else if resultType == Some(Loss) then s.(lossRoundCount := s.lossRoundCount + 1)
        else s;
      var round := Round(
        address := address,
        roundIndex := counted.roundIndex,
        startTime := counted.currentRoundStartTime.value,
        endTime := swap.blockTime,
        buyVolumeCat := counted.currentRoundBuyVolumeCat,
        buyVolumeUsd := counted.currentRoundBuyVolumeUsd,
        sellVolumeCat := counted.currentRoundSellVolumeCat,
        sellVolumeUsd := counted.currentRoundSellVolumeUsd,
        realizedPnlUsd := counted.currentRoundPnlUsd,
        resultType := resultType);
      var reset := counted.(currentRoundStartTime := None,
                            currentRoundPnlUsd := 0.0,
                            currentRoundBuyVolumeCat := 0,
                            currentRoundBuyVolumeUsd := 0.0,
                            currentRoundSellVolumeCat := 0,
                            currentRoundSellVolumeUsd := 0.0,
                            costUsd := 0.0);
      (reset, Some(round))
  }

  /**
   * The time bookkeeping of every swap: one more trade, the last trade time is
   * this swap's, and the first trade time is set only while it is unset.
   */
  function TimeStep(s: CalcState, swap: Swap): (r: CalcState)
    ensures r.tradeCount == s.tradeCount + 1
    ensures r.lastTradeAt == Some(swap.blockTime)
    ensures r.firstTradeAt == if IsSetTime(s.firstTradeAt) then s.firstTradeAt else Some(swap.blockTime)
    ensures r.(tradeCount := s.tradeCount, lastTradeAt := s.lastTradeAt, firstTradeAt := s.firstTradeAt) == s
  {
    var first := if !IsSetTime(s.firstTradeAt) then Some(swap.blockTime) else s.firstTradeAt;
    s.(firstTradeAt := first, lastTradeAt := Some(swap.blockTime), tradeCount := s.tradeCount + 1)
  }

  /**
   * The mutable accumulator of one replay, shared by reference between the
   * calculator and the processors. Its fields are held in one record value;
   * a processor updates the fields of that record one statement at a time
   * and stores the result back into the shared object.
   */
  class CalculationState {
    var value: CalcState

    constructor (v: CalcState)
      ensures value == v
    {
      value := v;
    }
  }

  /** Applies a buy to `state` in place. */
  method ProcessBuy(swap: Swap, state: CalculationState)
    modifies state
    ensures state.value == BuyStep(old(state.value), swap)
  {
    var amountCat := swap.amountCat;
    var amountUsd := if swap.amountUsd.Some? then swap.amountUsd.value else 0.0;
    var v := state.value;

    v := v.(buyCount := v.buyCount + 1);
    v := v.(buyVolumeCat := v.buyVolumeCat + amountCat);
    v := v.(buyVolumeUsd := v.buyVolumeUsd + amountUsd);

    if v.positionCat == 0 && v.currentRoundStartTime.None? {
      v := v.(roundIndex := v.roundIndex + 1);
      v := v.(currentRoundStartTime := Some(swap.blockTime));
      v := v.(currentRoundPnlUsd := 0.0);
      v := v.(currentRoundBuyVolumeCat := 0);
      v := v.(currentRoundBuyVolumeUsd := 0.0);
      v := v.(currentRoundSellVolumeCat := 0);
      v := v.(currentRoundSellVolumeUsd := 0.0);
    }

    v := v.(positionCat := v.positionCat + amountCat);
    v := v.(costUsd := v.costUsd + amountUsd);

    if v.currentRoundStartTime.Some? {
      v := v.(currentRoundBuyVolumeCat := v.currentRoundBuyVolumeCat + amountCat);
      v := v.(currentRoundBuyVolumeUsd := v.currentRoundBuyVolumeUsd + amountUsd);
    }
    state.value := v;
  }

  /** Applies a sell to `state` in place. */
  method ProcessSell(swap: Swap, state: CalculationState)
    modifies state
    ensures state.value == SellStep(old(state.value), swap)
  {
    var amountCat := swap.amountCat;
    var amountUsd := if swap.amountUsd.Some? then swap.amountUsd.value else 0.0;
    var v := state.value;

    v := v.(sellCount := v.sellCount + 1);
    v := v.(sellVolumeCat := v.sellVolumeCat + amountCat);
    v := v.(sellVolumeUsd := v.sellVolumeUsd + amountUsd);

    if v.positionCat == 0 || v.costUsd == 0.0 {
      state.value := v;
      return;
    }

    var avgBuyPrice := v.costUsd / (v.positionCat as real);
    var costForThisSell := avgBuyPrice * (amountCat as real);
    var realizedPnlForThisSell := amountUsd - costForThisSell;
    v := v.(realizedPnlUsd := v.realizedPnlUsd + realizedPnlForThisSell);
    v := v.(currentRoundPnlUsd := v.currentRoundPnlUsd + realizedPnlForThisSell);

    v := v.(positionCat := v.positionCat - amountCat);
    v := v.(costUsd := Max0(v.costUsd - costForThisSell));

    if v.currentRoundStartTime.Some? {
      v := v.(currentRoundSellVolumeCat := v.currentRoundSellVolumeCat + amountCat);
      v := v.(currentRoundSellVolumeUsd := v.currentRoundSellVolumeUsd + amountUsd);
    }
    state.value := v;
  }

  /**
   * Closes the open round of `state` at `swap` in place and returns the round
   * record to persist (None when no round is open).
   */
  method EndRound(address: string, swap: Swap, state: CalculationState) returns (round: Option<Round>)
    modifies state
    ensures (state.value, round) == EndRoundStep(address, old(state.value), swap)
  {
    var v := state.value;
    if v.currentRoundStartTime.None? {
      return None;
    }

    var resultType := ResultOf(v.currentRoundPnlUsd);
    if resultType == Some(Profit) {
      v := v.(profitRoundCount := v.profitRoundCount + 1);
    } else if resultType == Some(Loss) {
      v := v.(lossRoundCount := v.lossRoundCount + 1);
    }

    round := Some(Round(
      address := address,
      roundIndex := v.roundIndex,
      startTime := v.currentRoundStartTime.value,
      endTime := swap.blockTime,
      buyVolumeCat := v.currentRoundBuyVolumeCat,
      buyVolumeUsd := v.currentRoundBuyVolumeUsd,
      sellVolumeCat := v.currentRoundSellVolumeCat,
      sellVolumeUsd := v.currentRoundSellVolumeUsd,
      realizedPnlUsd := v.currentRoundPnlUsd,
      resultType := resultType));

    v := v.(currentRoundStartTime := None);
    v := v.(currentRoundPnlUsd := 0.0);
    v := v.(currentRoundBuyVolumeCat := 0);
    v := v.(currentRoundBuyVolumeUsd := 0.0);
    v := v.(currentRoundSellVolumeCat := 0);
    v := v.(currentRoundSellVolumeUsd := 0.0);

    v := v.(costUsd := 0.0);
    state.value := v;
  }

  /** Records the time of `swap` in `state` and counts the trade. */
  method UpdateTimeInfo(swap: Swap, state: CalculationState)
    modifies state
    ensures state.value == TimeStep(old(state.value), swap)
  {
    var v := state.value;
    if !IsSetTime(v.firstTradeAt) {
      v := v.(firstTradeAt := Some(swap.blockTime));
    }
    v := v.(lastTradeAt := Some(swap.blockTime));
    v := v.(tradeCount := v.tradeCount + 1);
    state.value := v;
  }
}
