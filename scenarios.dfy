/** Worked examples of one bot under its default settings. */
module Scenarios {
  import opened Wrappers
  import opened Config
  import opened Signals
  import opened SignalFilter
  import opened PositionSizing
  import opened Execution

  /** A strong signal in a bull trend, with volume and spread at their usual values. */
  const BullSignal := Signal(Some(0.9), Some(0.05), Some(0.5), Some(0.8), Some(0.9),
                             Some("trending_bull"), Some(1.0), Some(0.001), None, None, None)

  /**
   * A fresh bot with 10000 and default settings accepts the bull signal, sizes
   * it between 0.5% and 4% of its capital, and executes exactly one trade that
   * moves the capital by the logged amount.
   */
  lemma BullSignalTradesOnce(draw: real, baseProfitPct: real)
    ensures CheckTradeConditions(DefaultConfig, BullSignal)
    ensures var size := PositionSize(DefaultConfig, 10000.0, 10000.0, 10000.0, BullSignal);
      size.Ok? && 50.0 <= size.value <= 400.0
    ensures var r := TradeStep(DefaultConfig, InitialState(10000.0), BullSignal, draw, baseProfitPct);
      && r.outcome.Executed()
      && r.after.tradesToday == 1
      && |r.after.tradeHistory| == 1
      && r.after.capital == 10000.0 + r.after.tradeHistory[0].Signed()
  {
  }

  /**
   * A bot built with 1000 that is down to 940 has a 6% drawdown, beyond the
   * default 5%: whatever the signal, the call stops there and changes nothing.
   */
  lemma DrawdownStopsTrade(s: Signal, draw: real, baseProfitPct: real)
    ensures var st := InitialState(1000.0).(capital := 940.0);
      TradeStep(DefaultConfig, st, s, draw, baseProfitPct) == Step(DrawdownExceeded(0.06), st)
  {
  }
}
