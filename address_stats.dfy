/**
 * The replay loop of the address statistics calculator: one address's swaps,
 * in the order the store returns them, are folded into one accumulator; a
 * round is closed right after a sell that leaves the position at zero; the
 * statistics snapshot is built once after the loop.
 *
 * The store is abstracted: the swaps, the stored latest price and the
 * seven-day figures are inputs, the emitted rounds and the statistics are
 * outputs, and the wall clock is the parameter `now`.
 */
module AddressStatsCalculator {
  import opened Optional
  import opened AddressStatsTypes
  import opened AddressStatsUtils
  import opened AddressStatsProcessors

  /** The rounds one step emits: none, or the one just closed. */
  function Emitted(e: Option<Round>): seq<Round> {
    if e.Some? then [e.value] else []
  }

  /**
   * One iteration of the loop: the time bookkeeping, then the buy or sell
   * rule, and a round close right after a sell that leaves the position at
   * zero. Swaps of any other side only count as trades.
   */
  function Step(address: string, s: CalcState, swap: Swap): (r: (CalcState, Option<Round>))
    ensures r.1.Some? ==> swap.side == Sell && r.0.positionCat == 0 && !r.0.RoundOpen()
    ensures s.Consistent() ==> r.0.Consistent()
    ensures s.Consistent() && swap.side == Sell && r.0.positionCat == 0 ==> !r.0.RoundOpen() && r.0.costUsd == 0.0
    ensures r.0.tradeCount == s.tradeCount + 1
    ensures r.0.lastTradeAt == Some(swap.blockTime)
    ensures r.0.firstTradeAt == if IsSetTime(s.firstTradeAt) then s.firstTradeAt else Some(swap.blockTime)
    ensures s.costUsd >= 0.0 && (swap.side == Buy ==> UsdOf(swap) >= 0.0) ==> r.0.costUsd >= 0.0
  {
    var timed := TimeStep(s, swap);
    match swap.side
    case Buy => (BuyStep(timed, swap), None)
    case Sell =>
      var sold := SellStep(timed, swap);
      if sold.positionCat == 0 then EndRoundStep(address, sold, swap) else (sold, None)
    case Other => (timed, None)
  }

  /** The accumulator and the emitted rounds after replaying `swaps` from the initial state. */
  function Replay(address: string, swaps: seq<Swap>): (CalcState, seq<Round>)
    decreases |swaps|
  {
    if swaps == [] then (CreateInitialState(), [])
    else
      var prior := Replay(address, swaps[..|swaps| - 1]);
      var next := Step(address, prior.0, swaps[|swaps| - 1]);
      (next.0, prior.1 + Emitted(next.1))
  }

  /** The price the calculator values the position at: the caller's, else the store's latest. */
  function PriceToUse(latestPrice: Option<real>, storedLatestPrice: Option<real>): Option<real> {
    if latestPrice.Some? then latestPrice else storedLatestPrice
  }

  /** Number of swaps on `side`. */
  function CountSide(swaps: seq<Swap>, side: Side): nat
    decreases |swaps|
  {
    if swaps == [] then 0
    else CountSide(swaps[..|swaps| - 1], side) + (if swaps[|swaps| - 1].side == side then 1 else 0)
  }

  /** Number of rounds with result type `t`. */
  function CountResult(rounds: seq<Round>, t: Option<ResultType>): nat
    decreases |rounds|
  {
    if rounds == [] then 0
    else CountResult(rounds[..|rounds| - 1], t) + (if rounds[|rounds| - 1].resultType == t then 1 else 0)
  }

  /** Sum of the realised P&L of `rounds`. */
  function SumPnl(rounds: seq<Round>): real
    decreases |rounds|
  {
    if rounds == [] then 0.0 else SumPnl(rounds[..|rounds| - 1]) + rounds[|rounds| - 1].realizedPnlUsd
  }

  /** Every swap is a trade, and the buy and sell counters count their sides. */
  predicate CountsSwaps(swaps: seq<Swap>, s: CalcState) {
    && s.tradeCount == |swaps|
    && s.buyCount == CountSide(swaps, Buy)
    && s.sellCount == CountSide(swaps, Sell)
  }

  /**
   * The round number is the number of rounds emitted plus the open one;
   * rounds are numbered 1, 2, 3, ... in emission order and classified by
   * their P&L; the round counters count profits and losses; and lifetime
   * realised P&L is the emitted rounds' P&L plus the open round's.
   */
  predicate RecordsRounds(address: string, s: CalcState, rounds: seq<Round>) {
    && s.roundIndex == |rounds| + (if s.RoundOpen() then 1 else 0)
    && (forall i :: 0 <= i < |rounds| ==>
          rounds[i].roundIndex == i + 1 && rounds[i].address == address
          && rounds[i].resultType == ResultOf(rounds[i].realizedPnlUsd))
    && s.profitRoundCount == CountResult(rounds, Some(Profit))
    && s.lossRoundCount == CountResult(rounds, Some(Loss))
    && s.realizedPnlUsd == SumPnl(rounds) + s.currentRoundPnlUsd
  }

  /** What the accumulator and the emitted rounds say about the replayed swaps. */
  predicate Accounts(address: string, swaps: seq<Swap>, s: CalcState, rounds: seq<Round>) {
    s.Consistent() && CountsSwaps(swaps, s) && RecordsRounds(address, s, rounds)
  }

  /** One loop iteration counts the swap on its side. */
  lemma StepKeepsCounts(address: string, swaps: seq<Swap>, swap: Swap, s: CalcState)
    requires CountsSwaps(swaps, s)
    ensures CountsSwaps(swaps + [swap], Step(address, s, swap).0)
  {
    var swaps' := swaps + [swap];
    assert swaps'[..|swaps'| - 1] == swaps;
    var timed := TimeStep(s, swap);
    assert timed.buyCount == s.buyCount && timed.sellCount == s.sellCount;
    if swap.side == Sell {
      var sold := SellStep(timed, swap);
      assert sold.buyCount == s.buyCount && sold.sellCount == s.sellCount + 1;
    }
  }

  /** An iteration that closes a round appends it as the next numbered, classified round. */
  lemma CloseKeepsRounds(address: string, swap: Swap, s: CalcState, rounds: seq<Round>)
    requires s.Consistent() && RecordsRounds(address, s, rounds)
    requires Step(address, s, swap).1.Some?
    ensures var next := Step(address, s, swap);
            RecordsRounds(address, next.0, rounds + [next.1.value])
  {
    var timed := TimeStep(s, swap);
    var sold := SellStep(timed, swap);
    assert timed.RoundOpen() == s.RoundOpen() && timed.roundIndex == s.roundIndex;
    assert sold.RoundOpen() && sold.roundIndex == s.roundIndex;
    var rounds' := rounds + [Step(address, s, swap).1.value];
    assert rounds'[..|rounds'| - 1] == rounds;
  }

  /** An iteration that closes no round keeps the round records. */
  lemma NoCloseKeepsRounds(address: string, swap: Swap, s: CalcState, rounds: seq<Round>)
    requires s.Consistent() && RecordsRounds(address, s, rounds)
    requires Step(address, s, swap).1.None?
    ensures RecordsRounds(address, Step(address, s, swap).0, rounds)
  {
    var timed := TimeStep(s, swap);
    assert timed.RoundOpen() == s.RoundOpen() && timed.roundIndex == s.roundIndex;
    assert timed.realizedPnlUsd == s.realizedPnlUsd && timed.currentRoundPnlUsd == s.currentRoundPnlUsd;
  }

  /** One loop iteration keeps `Accounts`. */
  lemma StepKeepsAccounts(address: string, swaps: seq<Swap>, swap: Swap, s: CalcState, rounds: seq<Round>)
    requires Accounts(address, swaps, s, rounds)
    ensures var next := Step(address, s, swap);
            Accounts(address, swaps + [swap], next.0, rounds + Emitted(next.1))
  {
    StepKeepsCounts(address, swaps, swap, s);
    var next := Step(address, s, swap);
    if next.1.Some? {
      CloseKeepsRounds(address, swap, s, rounds);
    } else {
      NoCloseKeepsRounds(address, swap, s, rounds);
      assert rounds + Emitted(next.1) == rounds;
    }
  }

  /** The invariant of the replay loop holds after every prefix of the history. */
  lemma {:induction false} ReplayAccounts(address: string, swaps: seq<Swap>)
    ensures Accounts(address, swaps, Replay(address, swaps).0, Replay(address, swaps).1)
    decreases |swaps|
  {
    if swaps != [] {
      var prefix := swaps[..|swaps| - 1];
      ReplayAccounts(address, prefix);
      var last := swaps[|swaps| - 1];
      assert prefix + [last] == swaps;
      ReplayAppend(address, prefix, last);
      var prior := Replay(address, prefix);
      StepKeepsAccounts(address, prefix, last, prior.0, prior.1);
    }
  }

  /** Replaying one more swap is one more loop iteration. */
  lemma ReplaySnoc(address: string, swaps: seq<Swap>, i: nat)
    requires i < |swaps|
    ensures var prior := Replay(address, swaps[..i]);
            var next := Step(address, prior.0, swaps[i]);
            Replay(address, swaps[..i + 1]) == (next.0, prior.1 + Emitted(next.1))
  {
    assert swaps[..i + 1][..i] == swaps[..i];
  }

  /** One iteration of the replay loop, applied to the accumulator in place. */
  method ProcessSwap(address: string, swap: Swap, state: CalculationState) returns (round: Option<Round>)
    modifies state
    ensures (state.value, round) == Step(address, old(state.value), swap)
  {
    round := None;
    UpdateTimeInfo(swap, state);

    if swap.side == Buy {
      ProcessBuy(swap, state);
    } else if swap.side == Sell {
      ProcessSell(swap, state);

      if state.value.positionCat == 0 {
        round := EndRound(address, swap, state);
      }
    }
  }

  /**
   * Recalculates one address. An empty history yields no statistics and no
   * rounds. Otherwise the result is the replay of the whole history, valued
   * at the caller's price (or the store's latest when the caller gives
   * none): the trade counter equals the number of swaps and bounds buys plus
   * sells, and the rounds are numbered 1, 2, 3, ... in emission order.
   */
  method CalculateAddressStats(address: string, swaps: seq<Swap>, latestPrice: Option<real>,
                               storedLatestPrice: Option<real>, last7d: Last7DStats, now: int)
    returns (stats: Option<AddressStats>, rounds: seq<Round>)
    ensures swaps == [] ==> stats == None && rounds == []
    ensures swaps != [] ==>
              && rounds == Replay(address, swaps).1
              && stats == Some(BuildAddressStats(address, Replay(address, swaps).0,
                                                 PriceToUse(latestPrice, storedLatestPrice), last7d, now))
    ensures stats.Some? ==> stats.value.tradeCount == |swaps| &&
                            stats.value.buyCount + stats.value.sellCount <= stats.value.tradeCount
    ensures forall i :: 0 <= i < |rounds| ==> rounds[i].roundIndex == i + 1
  {
    rounds := [];
    if |swaps| == 0 {
      return None, rounds;
    }

    var price := if latestPrice.Some? then latestPrice else storedLatestPrice;

    var state := new CalculationState(CreateInitialState());

    for i := 0 to |swaps|
      invariant (state.value, rounds) == Replay(address, swaps[..i])
    {
      ReplaySnoc(address, swaps, i);
      var round := ProcessSwap(address, swaps[i], state);
      rounds := rounds + Emitted(round);
    }

    assert swaps[..|swaps|] == swaps;
    ReplayAccounts(address, swaps);
    CountSidesBounded(swaps);
    stats := Some(BuildAddressStats(address, state.value, price, last7d, now));
  }

  /** Buys and sells together are at most all the swaps. */
  lemma {:induction false} CountSidesBounded(swaps: seq<Swap>)
    ensures CountSide(swaps, Buy) + CountSide(swaps, Sell) <= |swaps|
    decreases |swaps|
  {
    if swaps != [] {
      CountSidesBounded(swaps[..|swaps| - 1]);
    }
  }

  /**
   * The round counters never exceed the number of closed rounds, and match
   * it exactly when no closed round broke even.
   */
  lemma {:induction false} OutcomeCountsOfClassified(rounds: seq<Round>)
    requires forall i :: 0 <= i < |rounds| ==> rounds[i].resultType == ResultOf(rounds[i].realizedPnlUsd)
    ensures CountResult(rounds, Some(Profit)) + CountResult(rounds, Some(Loss)) <= |rounds|
    ensures CountResult(rounds, Some(Profit)) + CountResult(rounds, Some(Loss)) == |rounds|
            <==> forall i :: 0 <= i < |rounds| ==> rounds[i].realizedPnlUsd != 0.0
    decreases |rounds|
  {
    if rounds != [] {
      var prefix := rounds[..|rounds| - 1];
      OutcomeCountsOfClassified(prefix);
      var last := rounds[|rounds| - 1];
      if forall i :: 0 <= i < |rounds| ==> rounds[i].realizedPnlUsd != 0.0 {
        assert forall i :: 0 <= i < |prefix| ==> prefix[i].realizedPnlUsd != 0.0 by {
          forall i | 0 <= i < |prefix| ensures prefix[i].realizedPnlUsd != 0.0 {
            assert prefix[i] == rounds[i];
          }
        }
      } else if last.realizedPnlUsd != 0.0 {
        var j :| 0 <= j < |rounds| && rounds[j].realizedPnlUsd == 0.0;
        assert prefix[j] == rounds[j];
      }
    }
  }

  /** Profit and loss round counts after a replay, against the rounds it emitted. */
  lemma RoundOutcomeCounts(address: string, swaps: seq<Swap>)
    ensures var (s, rounds) := Replay(address, swaps);
            && s.profitRoundCount + s.lossRoundCount <= |rounds|
            && (s.profitRoundCount + s.lossRoundCount == |rounds|
                <==> forall i :: 0 <= i < |rounds| ==> rounds[i].realizedPnlUsd != 0.0)
  {
    ReplayAccounts(address, swaps);
    OutcomeCountsOfClassified(Replay(address, swaps).1);
  }

  /** Emitted rounds are numbered 1, 2, 3, ... and the counter points at the last one or the open one. */
  lemma RoundIndicesSequential(address: string, swaps: seq<Swap>)
    ensures var (s, rounds) := Replay(address, swaps);
            && (forall i :: 0 <= i < |rounds| ==> rounds[i].roundIndex == i + 1)
            && s.roundIndex == |rounds| + (if s.RoundOpen() then 1 else 0)
  {
    ReplayAccounts(address, swaps);
  }

  /** Lifetime realised P&L is the closed rounds' P&L plus the open round's. */
  lemma RealizedPnlDecomposes(address: string, swaps: seq<Swap>)
    ensures var (s, rounds) := Replay(address, swaps);
            s.realizedPnlUsd == SumPnl(rounds) + s.currentRoundPnlUsd
  {
    ReplayAccounts(address, swaps);
  }

  /** Every swap is a trade; only buys and sells are counted by side. */
  lemma TradeCounts(address: string, swaps: seq<Swap>)
    ensures var s := Replay(address, swaps).0;
            s.tradeCount == |swaps| && s.buyCount + s.sellCount <= s.tradeCount
  {
    ReplayAccounts(address, swaps);
    CountSidesBounded(swaps);
  }

  /** A round is only ever closed by a sell that leaves the position at zero. */
  lemma RoundClosesOnlyAtZero(address: string, swaps: seq<Swap>)
    requires swaps != []
    ensures var prior := Replay(address, swaps[..|swaps| - 1]);
            var (s, rounds) := Replay(address, swaps);
            && (|rounds| > |prior.1| ==>
                  swaps[|swaps| - 1].side == Sell && s.positionCat == 0 && !s.RoundOpen() && s.costUsd == 0.0)
            && (|rounds| == |prior.1| || |rounds| == |prior.1| + 1)
  {
    ReplayAccounts(address, swaps[..|swaps| - 1]);
  }

  /** Every swap's USD amount is non-negative. */
  predicate NonNegativeUsd(swaps: seq<Swap>) {
    forall i :: 0 <= i < |swaps| ==> UsdOf(swaps[i]) >= 0.0
  }

  /** With non-negative USD amounts, the cost basis is never negative. */
  lemma {:induction false} ReplayCostNonNegative(address: string, swaps: seq<Swap>)
    requires NonNegativeUsd(swaps)
    ensures Replay(address, swaps).0.costUsd >= 0.0
    decreases |swaps|
  {
    if swaps != [] {
      var prefix := swaps[..|swaps| - 1];
      assert NonNegativeUsd(prefix) by {
        forall i | 0 <= i < |prefix| ensures UsdOf(prefix[i]) >= 0.0 {
          assert prefix[i] == swaps[i];
        }
      }
      ReplayCostNonNegative(address, prefix);
    }
  }

  /** Every swap has a nonzero block time. */
  predicate NonZeroTimes(swaps: seq<Swap>) {
    forall i :: 0 <= i < |swaps| ==> swaps[i].blockTime != 0
  }

  /**
   * For nonzero block times, the first and last trade times are those of the
   * first and last swap; with no swaps both are unset.
   */
  lemma {:induction false} FirstLastTradeTimes(address: string, swaps: seq<Swap>)
    requires NonZeroTimes(swaps)
    ensures var s := Replay(address, swaps).0;
            if swaps == [] then s.firstTradeAt.None? && s.lastTradeAt.None?
            else s.firstTradeAt == Some(swaps[0].blockTime) && s.lastTradeAt == Some(swaps[|swaps| - 1].blockTime)
    decreases |swaps|
  {
    if swaps != [] {
      var prefix := swaps[..|swaps| - 1];
      assert NonZeroTimes(prefix) by {
        forall i | 0 <= i < |prefix| ensures prefix[i].blockTime != 0 {
          assert prefix[i] == swaps[i];
        }
      }
      FirstLastTradeTimes(address, prefix);
      if prefix != [] {
        assert prefix[0] == swaps[0];
      }
    }
  }

  /**
   * A position of zero does not imply a cost of zero: a buy whose floored
   * quantity is 0 but whose USD amount is positive opens a round with cost
   * and no position. The next sell, of any size, finds the position at zero,
   * realises nothing and closes the round, dropping the cost.
   */
  lemma ZeroQuantityBuyKeepsCost(address: string, blockTime: int, usd: real)
    requires usd > 0.0
    ensures var s := Replay(address, [Swap(blockTime, Buy, 0, Some(usd))]).0;
            s.positionCat == 0 && s.costUsd == usd && s.RoundOpen()
  {
    var swaps := [Swap(blockTime, Buy, 0, Some(usd))];
    assert swaps[..0] == [];
  }

  /**
   * A sell processed while the position is zero realises nothing, yet closes
   * the open round: the record carries the round as it stood, and the cost is
   * dropped without entering realised P&L.
   */
  lemma UntrackedSellClosesRound(address: string, s: CalcState, swap: Swap)
    requires swap.side == Sell && s.positionCat == 0 && s.RoundOpen()
    ensures var (r, closed) := Step(address, s, swap);
            && closed == Some(Round(address, s.roundIndex, s.currentRoundStartTime.value, swap.blockTime,
                                    s.currentRoundBuyVolumeCat, s.currentRoundBuyVolumeUsd,
                                    s.currentRoundSellVolumeCat, s.currentRoundSellVolumeUsd,
                                    s.currentRoundPnlUsd, ResultOf(s.currentRoundPnlUsd)))
            && r.realizedPnlUsd == s.realizedPnlUsd && r.positionCat == 0 && r.costUsd == 0.0
            && !r.RoundOpen() && r.sellCount == s.sellCount + 1
  {
    var timed := TimeStep(s, swap);
    assert !TracksSell(timed) && timed.RoundOpen();
    var sold := SellStep(timed, swap);
    assert sold.positionCat == 0 && sold.RoundOpen();
    assert sold.currentRoundPnlUsd == s.currentRoundPnlUsd && sold.realizedPnlUsd == s.realizedPnlUsd;
  }

  /**
   * A buy of 0 tokens for $10, then a sell of 5 tokens for $3: the sell is not
   * tracked, the round closes with zero P&L and no result, and the $10 of cost
   * leaves the books without a realised loss.
   */
  lemma ZeroQuantityRoundScenario(address: string)
    ensures var (s, rounds) := Replay(address, [Swap(1, Buy, 0, Some(10.0)), Swap(2, Sell, 5, Some(3.0))]);
            && rounds == [Round(address, 1, 1, 2, 0, 10.0, 0, 0.0, 0.0, None)]
            && s.costUsd == 0.0 && s.realizedPnlUsd == 0.0 && s.positionCat == 0 && !s.RoundOpen()
            && s.profitRoundCount == 0 && s.lossRoundCount == 0
  {
    var a := Swap(1, Buy, 0, Some(10.0));
    var b := Swap(2, Sell, 5, Some(3.0));
    var init := CreateInitialState();
    ReplayAppend(address, [], a);
    assert [] + [a] == [a];
    BuyOpensRound(address, init, a);
    var prior := Step(address, init, a);
    assert Replay(address, [a]) == (prior.0, []);
    assert prior.0.roundIndex == 1 && prior.0.currentRoundStartTime == Some(1);
    assert prior.0.currentRoundPnlUsd == 0.0;
    ReplayAppend(address, [a], b);
    assert [a] + [b] == [a, b];
    UntrackedSellClosesRound(address, prior.0, b);
    var next := Step(address, prior.0, b);
    assert Emitted(next.1) == [Round(address, 1, 1, 2, 0, 10.0, 0, 0.0, 0.0, None)];
  }

  /** Replaying a history extended by one swap is one more step on its replay. */
  lemma ReplayAppend(address: string, swaps: seq<Swap>, swap: Swap)
    ensures var next := Step(address, Replay(address, swaps).0, swap);
            && Replay(address, swaps + [swap]).0 == next.0
            && Replay(address, swaps + [swap]).1 == Replay(address, swaps).1 + Emitted(next.1)
  {
    var longer := swaps + [swap];
    assert longer[..|longer| - 1] == swaps;
  }

  /**
   * A buy while flat and between rounds opens the next round at the buy's
   * time, with the buy as the round's only volume so far.
   */
  lemma BuyOpensRound(address: string, s: CalcState, swap: Swap)
    requires swap.side == Buy && s.positionCat == 0 && !s.RoundOpen()
    ensures var (r, closed) := Step(address, s, swap);
            && closed.None?
            && r.positionCat == swap.amountCat && r.costUsd == s.costUsd + UsdOf(swap)
            && r.roundIndex == s.roundIndex + 1 && r.currentRoundStartTime == Some(swap.blockTime)
            && r.currentRoundPnlUsd == 0.0
            && r.currentRoundBuyVolumeCat == swap.amountCat && r.currentRoundBuyVolumeUsd == UsdOf(swap)
            && r.currentRoundSellVolumeCat == 0 && r.currentRoundSellVolumeUsd == 0.0
            && r.realizedPnlUsd == s.realizedPnlUsd
            && r.profitRoundCount == s.profitRoundCount && r.lossRoundCount == s.lossRoundCount
  {
    var timed := TimeStep(s, swap);
    assert timed.positionCat == 0 && !timed.RoundOpen() && timed.costUsd == s.costUsd;
    assert timed.realizedPnlUsd == s.realizedPnlUsd;
    assert timed.profitRoundCount == s.profitRoundCount && timed.lossRoundCount == s.lossRoundCount;
    assert timed.roundIndex == s.roundIndex;
  }

  /**
   * Selling the whole position of an open round with a nonzero cost closes
   * the round: its P&L is what the round had realised plus the sale's USD
   * minus the whole pooled cost, and it is recorded under the round's number.
   */
  lemma SellAllClosesRound(address: string, s: CalcState, swap: Swap)
    requires swap.side == Sell && s.RoundOpen() && s.positionCat != 0 && s.costUsd != 0.0
    requires swap.amountCat == s.positionCat
    ensures var pnl := s.currentRoundPnlUsd + (UsdOf(swap) - s.costUsd);
            var (r, closed) := Step(address, s, swap);
            && closed == Some(Round(address, s.roundIndex, s.currentRoundStartTime.value, swap.blockTime,
                                    s.currentRoundBuyVolumeCat, s.currentRoundBuyVolumeUsd,
                                    s.currentRoundSellVolumeCat + swap.amountCat,
                                    s.currentRoundSellVolumeUsd + UsdOf(swap), pnl, ResultOf(pnl)))
            && r.realizedPnlUsd == s.realizedPnlUsd + (UsdOf(swap) - s.costUsd)
            && r.profitRoundCount == s.profitRoundCount + (if pnl > 0.0 then 1 else 0)
            && r.lossRoundCount == s.lossRoundCount + (if pnl < 0.0 then 1 else 0)
            && r.positionCat == 0 && r.costUsd == 0.0 && !r.RoundOpen() && r.roundIndex == s.roundIndex
  {
    var timed := TimeStep(s, swap);
    assert timed.positionCat == s.positionCat && timed.costUsd == s.costUsd;
    assert TracksSell(timed);
    assert CostForSell(timed, swap.amountCat) == s.costUsd;
    var sold := SellStep(timed, swap);
    assert sold.positionCat == 0 && sold.RoundOpen();
    assert sold.currentRoundPnlUsd == s.currentRoundPnlUsd + (UsdOf(swap) - s.costUsd);
  }

  /**
   * A buy of 100 tokens for $100 then a sell of all 100 for $150 closes
   * round 1 with a $50 profit.
   */
  lemma ProfitableRoundScenario(address: string)
    ensures var (s, rounds) := Replay(address, [Swap(1, Buy, 100, Some(100.0)), Swap(2, Sell, 100, Some(150.0))]);
            && rounds == [Round(address, 1, 1, 2, 100, 100.0, 100, 150.0, 50.0, Some(Profit))]
            && s.profitRoundCount == 1 && s.lossRoundCount == 0
            && s.positionCat == 0 && s.costUsd == 0.0 && !s.RoundOpen()
            && s.realizedPnlUsd == 50.0
  {
    var buy := Swap(1, Buy, 100, Some(100.0));
    var sell := Swap(2, Sell, 100, Some(150.0));
    ReplayAppend(address, [], buy);
    assert [] + [buy] == [buy];
    BuyOpensRound(address, CreateInitialState(), buy);
    ReplayAppend(address, [buy], sell);
    assert [buy] + [sell] == [buy, sell];
    SellAllClosesRound(address, Replay(address, [buy]).0, sell);
  }

  /**
   * A buy of 10 for $20 then a sell of all 10 for $15 closes round 1 at a
   * $5 loss, counted as a loss round.
   */
  lemma LosingRoundScenario(address: string)
    ensures var (s, rounds) := Replay(address, [Swap(1, Buy, 10, Some(20.0)), Swap(2, Sell, 10, Some(15.0))]);
            && rounds == [Round(address, 1, 1, 2, 10, 20.0, 10, 15.0, -5.0, Some(Loss))]
            && s.positionCat == 0 && s.costUsd == 0.0 && !s.RoundOpen() && s.roundIndex == 1
            && s.realizedPnlUsd == -5.0 && s.lossRoundCount == 1 && s.profitRoundCount == 0
  {
    var a := Swap(1, Buy, 10, Some(20.0));
    var b := Swap(2, Sell, 10, Some(15.0));
    ReplayAppend(address, [], a);
    assert [] + [a] == [a];
    BuyOpensRound(address, CreateInitialState(), a);
    ReplayAppend(address, [a], b);
    assert [a] + [b] == [a, b];
    SellAllClosesRound(address, Replay(address, [a]).0, b);
  }

  /** After the losing round trip, a buy of 10 for $10 opens round 2. */
  lemma SecondRoundOpensScenario(address: string)
    ensures var (s, rounds) := Replay(address, [Swap(1, Buy, 10, Some(20.0)), Swap(2, Sell, 10, Some(15.0)),
                                                Swap(3, Buy, 10, Some(10.0))]);
            && rounds == [Round(address, 1, 1, 2, 10, 20.0, 10, 15.0, -5.0, Some(Loss))]
            && s.positionCat == 10 && s.costUsd == 10.0 && s.RoundOpen() && s.currentRoundStartTime == Some(3)
            && s.roundIndex == 2 && s.currentRoundPnlUsd == 0.0 && s.realizedPnlUsd == -5.0
            && s.lossRoundCount == 1 && s.profitRoundCount == 0
  {
    var a := Swap(1, Buy, 10, Some(20.0));
    var b := Swap(2, Sell, 10, Some(15.0));
    var c := Swap(3, Buy, 10, Some(10.0));
    LosingRoundScenario(address);
    ReplayAppend(address, [a, b], c);
    assert [a, b] + [c] == [a, b, c];
    BuyOpensRound(address, Replay(address, [a, b]).0, c);
  }

  /**
   * The losing round trip followed by a buy of 10 for $10 and a sell of
   * all 10 for $30: the second round is numbered 2, is a $20 profit, and
   * lifetime P&L is the sum of the two rounds.
   */
  lemma TwoRoundsScenario(address: string)
    ensures var (s, rounds) := Replay(address, [Swap(1, Buy, 10, Some(20.0)), Swap(2, Sell, 10, Some(15.0)),
                                                Swap(3, Buy, 10, Some(10.0)), Swap(4, Sell, 10, Some(30.0))]);
            && rounds == [Round(address, 1, 1, 2, 10, 20.0, 10, 15.0, -5.0, Some(Loss)),
                          Round(address, 2, 3, 4, 10, 10.0, 10, 30.0, 20.0, Some(Profit))]
            && s.realizedPnlUsd == 15.0 && s.profitRoundCount == 1 && s.lossRoundCount == 1
            && s.positionCat == 0 && !s.RoundOpen()
  {
    var a := Swap(1, Buy, 10, Some(20.0));
    var b := Swap(2, Sell, 10, Some(15.0));
    var c := Swap(3, Buy, 10, Some(10.0));
    var d := Swap(4, Sell, 10, Some(30.0));
    SecondRoundOpensScenario(address);
    ReplayAppend(address, [a, b, c], d);
    assert [a, b, c] + [d] == [a, b, c, d];
    var prior := Replay(address, [a, b, c]);
    SellAllClosesRound(address, prior.0, d);
    var next := Step(address, prior.0, d);
    assert Emitted(next.1) == [Round(address, 2, 3, 4, 10, 10.0, 10, 30.0, 20.0, Some(Profit))];
  }
}
