/** The bot's state and the two operations that change it: `trade` and `reset_daily_stats`. */
module Execution {
  import opened Wrappers
  import opened RealMath
  import opened Config
  import opened Signals
  import opened SignalFilter
  import opened PositionSizing

  /** The `type` of a logged trade. */
  datatype Side = Winning | Losing

  /** One entry of the trade history; `amount` is the profit or the loss, never signed. */
  datatype TradeRecord = TradeRecord(side: Side, size: real, amount: real, pct: real, confidence: real, regime: string)
  {
    /** What the trade added to the capital. */
    function Signed(): real {
      if side == Winning then amount else -amount
    }
  }

  /** One entry of the daily history, written by the daily reset. */
  datatype DailySummary = DailySummary(dailyReturn: real, profit: real, trades: int)

  /** Every field of the bot that changes, and the initial capital. */
  datatype BotState = BotState(
    capital: real,
    initialCapital: real,
    peakCapital: real,
    dailyProfit: real,
    tradesToday: int,
    tradeHistory: seq<TradeRecord>,
    dailyPnlHistory: seq<DailySummary>,
    bestDailyReturn: real,
    worstDailyReturn: real)

  /** The state of a freshly built bot. */
  function InitialState(capital: real): BotState {
    BotState(capital, capital, capital, 0.0, 0, [], [], 0.0, 0.0)
  }

  /** What one call of `trade` reports. */
  datatype TradeOutcome =
    | LimitReached
    | MinTargetReached(dailyReturn: real)
    | MaxTargetReached(dailyReturn: real)
    | DrawdownExceeded(drawdown: real)
    | FiltersNotMet
    | DivisionByZero          // the ZeroDivisionError raised before any state change
    | Win(profit: real, pct: real)
    | Loss(loss: real, pct: real)
  {
    predicate Executed() { Win? || Loss? }
  }

  datatype Step = Step(outcome: TradeOutcome, after: BotState)

  /** The day's profit relative to the capital, 0 unless the capital is positive. */
  function DailyReturn(st: BotState): real {
    GuardedRatio(st.dailyProfit, st.capital)
  }

  /** Win-probability factor of each regime. */
  function RegimeAdjustment(r: Regime): real {
    match r
    case TrendingBull => 1.1
    case TrendingBear => 1.05
    case Sideways => 0.95
    case HighVolatility => 0.85
    case LowVolatility => 1.15
    case Unlisted => 1.0
  }

  /** Profit factor of each regime. */
  function RegimeProfitBonus(r: Regime): real {
    match r
    case TrendingBull => 1.2
    case TrendingBear => 1.1
    case Sideways => 0.9
    case HighVolatility => 1.1
    case LowVolatility => 1.0
    case Unlisted => 1.0
  }

  /** Stop-loss factor of each regime. */
  function RegimeLossAdjustment(r: Regime): real {
    match r
    case TrendingBull => 0.9
    case TrendingBear => 1.0
    case Sideways => 1.1
    case HighVolatility => 1.3
    case LowVolatility => 0.8
    case Unlisted => 1.0
  }

  /** The chance that a trade wins, kept within [0.50, 0.85] whatever the confidence. */
  function SuccessProbability(confidence: real, r: Regime): (p: real)
    ensures 0.5 <= p <= 0.85
  {
    Min(0.85, Max(0.5, (0.55 + confidence * 0.25) * RegimeAdjustment(r)))
  }

  /** The confidence bonus of a win; it is non-negative exactly when the confidence is at least -4.5. */
  function ConfidenceBonus(confidence: real): (b: real)
    ensures b >= 0.0 <==> confidence >= -4.5
    ensures b >= 1.0 <==> confidence >= 0.5
  {
    1.0 + (confidence - 0.5) * 0.2
  }

  /** The profit fraction of a win, capped at 4.5%. */
  function WinPercentage(baseProfitPct: real, confidence: real, r: Regime): (pct: real)
    ensures pct <= 0.045
  {
    Min(0.045, baseProfitPct * ConfidenceBonus(confidence) * RegimeProfitBonus(r))
  }

  /** A win of a drawn base profit is positive whenever the confidence bonus is non-negative. */
  lemma WinPercentageBounds(baseProfitPct: real, confidence: real, r: Regime)
    requires 0.015 <= baseProfitPct <= 0.035
    ensures confidence >= -4.5 ==> WinPercentage(baseProfitPct, confidence, r) >= 0.0
    ensures confidence >= 0.5 ==> WinPercentage(baseProfitPct, confidence, r) >= 0.0135
  {
    var g := RegimeProfitBonus(r);
    assert 0.9 <= g;
    ScaledProfitBounds(baseProfitPct, ConfidenceBonus(confidence), g);
  }

  lemma ScaledProfitBounds(p: real, b: real, g: real)
    requires 0.015 <= p && 0.9 <= g
    ensures b >= 0.0 ==> p * b * g >= 0.0
    ensures b >= 1.0 ==> p * b * g >= 0.0135
  {
    if b >= 0.0 {
      MulMonotone(p, 0.0, b);
      MulMonotone(p * b, 0.0, g);
    }
    if b >= 1.0 {
      MulMonotone(p, 1.0, b);
      MulMonotone(p * b, 0.9, g);
    }
  }

  /** The loss fraction of a loss, capped at 2.5%. */
  function LossPercentage(stopLoss: real, r: Regime): (pct: real)
    ensures pct <= 0.025
    ensures stopLoss >= 0.0 ==> pct >= 0.0
  {
    var adj := RegimeLossAdjustment(r);
    assert stopLoss >= 0.0 ==> stopLoss * adj >= 0.0;
    Min(0.025, stopLoss * adj)
  }

  /**
   * The first gate that stops a trade, in the order the bot tries them, or
   * None when every gate passes.
   */
  function Gate(cfg: Config, st: BotState, s: Signal): (g: Option<TradeOutcome>)
    ensures g == Some(LimitReached) <==> st.tradesToday >= cfg.maxTradesDaily
    ensures g.Some? ==> !g.value.Executed()
    ensures g.Some? && g.value.MinTargetReached? <==>
      && st.tradesToday < cfg.maxTradesDaily
      && cfg.targetReturn <= DailyReturn(st) < cfg.maxTargetReturn
    ensures g.Some? && g.value.MaxTargetReached? <==>
      && st.tradesToday < cfg.maxTradesDaily
      && DailyReturn(st) >= cfg.maxTargetReturn
    ensures g.Some? && g.value.DrawdownExceeded? <==>
      && st.tradesToday < cfg.maxTradesDaily
      && DailyReturn(st) < cfg.targetReturn
      && DailyReturn(st) < cfg.maxTargetReturn
      && st.initialCapital != 0.0
      && (st.initialCapital - st.capital) / st.initialCapital > cfg.maxDrawdown
    ensures g.Some? && g.value.FiltersNotMet? <==>
      && st.tradesToday < cfg.maxTradesDaily
      && DailyReturn(st) < cfg.targetReturn
      && DailyReturn(st) < cfg.maxTargetReturn
      && st.initialCapital != 0.0
      && (st.initialCapital - st.capital) / st.initialCapital <= cfg.maxDrawdown
      && !CheckTradeConditions(cfg, s)
    ensures g.Some? && g.value.DivisionByZero? <==>
      && st.tradesToday < cfg.maxTradesDaily
      && DailyReturn(st) < cfg.targetReturn
      && DailyReturn(st) < cfg.maxTargetReturn
      && (st.initialCapital == 0.0
          || ((st.initialCapital - st.capital) / st.initialCapital <= cfg.maxDrawdown
              && CheckTradeConditions(cfg, s)
              && !UsesSignalFraction(cfg, s) && s.AvgWin() == 0.0))
    ensures g.None? <==>
      && st.tradesToday < cfg.maxTradesDaily
      && DailyReturn(st) < cfg.targetReturn
      && DailyReturn(st) < cfg.maxTargetReturn
      && st.initialCapital != 0.0
      && (st.initialCapital - st.capital) / st.initialCapital <= cfg.maxDrawdown
      && CheckTradeConditions(cfg, s)
      && PositionSize(cfg, st.capital, st.initialCapital, st.peakCapital, s).Ok?
  {
    var dailyReturn := DailyReturn(st);
    if st.tradesToday >= cfg.maxTradesDaily then Some(LimitReached)
    else if dailyReturn >= cfg.targetReturn && dailyReturn < cfg.maxTargetReturn then Some(MinTargetReached(dailyReturn))
    else if dailyReturn >= cfg.maxTargetReturn then Some(MaxTargetReached(dailyReturn))
    else if st.initialCapital == 0.0 then Some(DivisionByZero)
    else if (st.initialCapital - st.capital) / st.initialCapital > cfg.maxDrawdown then
      Some(DrawdownExceeded((st.initialCapital - st.capital) / st.initialCapital))
    else if !CheckTradeConditions(cfg, s) then Some(FiltersNotMet)
    else if PositionSize(cfg, st.capital, st.initialCapital, st.peakCapital, s).ZeroDivisionError? then Some(DivisionByZero)
    else None
  }

  /**
   * A trade of `size` once every gate passed: a win when `draw` falls below the
   * success probability, else a loss; one record either way.
   */
  function Execute(cfg: Config, st: BotState, s: Signal, size: real, draw: real, baseProfitPct: real): (r: Step)
    ensures r.outcome.Executed()
    ensures r.outcome.Win? <==> draw < SuccessProbability(s.Confidence(), Classify(s.RegimeName()))
    ensures r.after.tradesToday == st.tradesToday + 1
    ensures |r.after.tradeHistory| == |st.tradeHistory| + 1
    ensures r.after.tradeHistory[..|st.tradeHistory|] == st.tradeHistory
    ensures var t := r.after.tradeHistory[|st.tradeHistory|];
      && t.size == size && t.confidence == s.Confidence() && t.regime == s.RegimeName()
      && t.pct == r.outcome.pct
      && (r.outcome.Win? ==> t.side == Winning && t.amount == r.outcome.profit == size * r.outcome.pct)
      && (r.outcome.Loss? ==> t.side == Losing && t.amount == r.outcome.loss == size * r.outcome.pct)
      && r.after.capital == st.capital + t.Signed()
      && r.after.dailyProfit == st.dailyProfit + t.Signed()
    ensures r.outcome.Win? ==> r.outcome.pct == WinPercentage(baseProfitPct, s.Confidence(), Classify(s.RegimeName()))
    ensures r.outcome.Loss? ==> r.outcome.pct == LossPercentage(cfg.stopLoss, Classify(s.RegimeName()))
    ensures r.outcome.Win? ==> r.outcome.pct <= 0.045 && r.after.peakCapital == Max(st.peakCapital, r.after.capital)
    ensures r.outcome.Loss? ==> r.outcome.pct <= 0.025 && r.after.peakCapital == st.peakCapital
    ensures r.after.initialCapital == st.initialCapital
    ensures r.after.dailyPnlHistory == st.dailyPnlHistory
    ensures r.after.bestDailyReturn == st.bestDailyReturn && r.after.worstDailyReturn == st.worstDailyReturn
  {
    if draw < SuccessProbability(s.Confidence(), Classify(s.RegimeName())) then WinStep(st, s, size, baseProfitPct)
    else LossStep(cfg, st, s, size)
  }

  /** A winning trade: the profit is added and the peak follows the capital up. */
  function WinStep(st: BotState, s: Signal, size: real, baseProfitPct: real): Step {
    var confidence := s.Confidence();
    var regime := s.RegimeName();
    var pct := WinPercentage(baseProfitPct, confidence, Classify(regime));
    var profit := size * pct;
    var capital := st.capital + profit;
    Step(Win(profit, pct),
         st.(capital := capital,
             dailyProfit := st.dailyProfit + profit,
             peakCapital := if capital > st.peakCapital then capital else st.peakCapital,
             tradesToday := st.tradesToday + 1,
             tradeHistory := st.tradeHistory + [TradeRecord(Winning, size, profit, pct, confidence, regime)]))
  }

  /** A losing trade: the loss is taken off; the peak stays. */
  function LossStep(cfg: Config, st: BotState, s: Signal, size: real): Step {
    var confidence := s.Confidence();
    var regime := s.RegimeName();
    var pct := LossPercentage(cfg.stopLoss, Classify(regime));
    var loss := size * pct;
    Step(Loss(loss, pct),
         st.(capital := st.capital - loss,
             dailyProfit := st.dailyProfit - loss,
             tradesToday := st.tradesToday + 1,
             tradeHistory := st.tradeHistory + [TradeRecord(Losing, size, loss, pct, confidence, regime)]))
  }

  /**
   * One call of `trade`: the gates in order, then one executed trade. `draw`
   * stands for `random.random()` and `baseProfitPct` for `random.uniform(0.015, 0.035)`.
   */
  function TradeStep(cfg: Config, st: BotState, s: Signal, draw: real, baseProfitPct: real): (r: Step)
    ensures r.outcome == LimitReached <==> st.tradesToday >= cfg.maxTradesDaily
    ensures !r.outcome.Executed() ==> r.after == st
    ensures r.outcome.Executed() <==> Gate(cfg, st, s).None?
    ensures !r.outcome.Executed() ==> Gate(cfg, st, s) == Some(r.outcome)
    ensures r.outcome.Executed() ==>
      var size := PositionSize(cfg, st.capital, st.initialCapital, st.peakCapital, s);
      size.Ok? && r == Execute(cfg, st, s, size.value, draw, baseProfitPct)
    ensures r.after.peakCapital >= st.peakCapital
  {
    match Gate(cfg, st, s)
    case Some(stop) => Step(stop, st)
    case None =>
      var size := PositionSize(cfg, st.capital, st.initialCapital, st.peakCapital, s).value;
      Execute(cfg, st, s, size, draw, baseProfitPct)
  }

  /** `reset_daily_stats`: log the day when the capital is positive, then zero the day's counters. */
  function ResetStep(st: BotState): (r: BotState)
    ensures r.dailyProfit == 0.0 && r.tradesToday == 0
    ensures |r.dailyPnlHistory| == |st.dailyPnlHistory| + (if st.capital > 0.0 then 1 else 0)
    ensures r.dailyPnlHistory[..|st.dailyPnlHistory|] == st.dailyPnlHistory
    ensures st.capital > 0.0 ==>
      r.dailyPnlHistory[|st.dailyPnlHistory|] == DailySummary(DailyReturn(st), st.dailyProfit, st.tradesToday)
    ensures r.bestDailyReturn >= st.bestDailyReturn && r.worstDailyReturn <= st.worstDailyReturn
    ensures st.capital > 0.0 ==>
      && r.bestDailyReturn == Max(st.bestDailyReturn, DailyReturn(st))
      && r.worstDailyReturn == Min(st.worstDailyReturn, DailyReturn(st))
    ensures st.capital <= 0.0 ==> r == st.(dailyProfit := 0.0, tradesToday := 0)
    ensures forall i :: |st.dailyPnlHistory| <= i < |r.dailyPnlHistory| ==>
      r.worstDailyReturn <= r.dailyPnlHistory[i].dailyReturn <= r.bestDailyReturn
    ensures r.capital == st.capital && r.peakCapital == st.peakCapital && r.initialCapital == st.initialCapital
    ensures r.tradeHistory == st.tradeHistory
  {
    if st.capital > 0.0 then
      var dailyReturn := st.dailyProfit / st.capital;
      st.(dailyPnlHistory := st.dailyPnlHistory + [DailySummary(dailyReturn, st.dailyProfit, st.tradesToday)],
          bestDailyReturn := Max(st.bestDailyReturn, dailyReturn),
          worstDailyReturn := Min(st.worstDailyReturn, dailyReturn),
          dailyProfit := 0.0,
          tradesToday := 0)
    else
      st.(dailyProfit := 0.0, tradesToday := 0)
  }

  /** The sum of what the trades added to the capital. */
  function NetProfit(ts: seq<TradeRecord>): real {
    if |ts| == 0 then 0.0 else NetProfit(ts[..|ts| - 1]) + ts[|ts| - 1].Signed()
  }

  /** The trades since the last daily reset. */
  function TodaysTrades(st: BotState): seq<TradeRecord>
    requires 0 <= st.tradesToday <= |st.tradeHistory|
  {
    st.tradeHistory[|st.tradeHistory| - st.tradesToday..]
  }

  /**
   * What every reachable state satisfies: the capital is the initial capital
   * plus every trade's profit or loss, the day's profit is the sum over the
   * trades since the last reset, the peak never fell below the initial
   * capital, and every logged daily return lies between the worst and the
   * best, which enclose 0.
   */
  ghost predicate Consistent(st: BotState) {
    && 0 <= st.tradesToday <= |st.tradeHistory|
    && st.capital == st.initialCapital + NetProfit(st.tradeHistory)
    && st.dailyProfit == NetProfit(TodaysTrades(st))
    && st.peakCapital >= st.initialCapital
    && st.worstDailyReturn <= 0.0 <= st.bestDailyReturn
    && forall i :: 0 <= i < |st.dailyPnlHistory| ==>
         st.worstDailyReturn <= st.dailyPnlHistory[i].dailyReturn <= st.bestDailyReturn
  }

  lemma InitialStateConsistent(capital: real)
    ensures Consistent(InitialState(capital))
  {
  }

  /** Appending a trade adds its signed amount to the net profit of any suffix ending there. */
  lemma NetProfitAppend(ts: seq<TradeRecord>, k: nat, t: TradeRecord)
    requires k <= |ts|
    ensures NetProfit((ts + [t])[|ts| - k..]) == NetProfit(ts[|ts| - k..]) + t.Signed()
  {
    var suffix := (ts + [t])[|ts| - k..];
    assert suffix[..|suffix| - 1] == ts[|ts| - k..];
  }

  /** An executed trade keeps the state consistent. */
  lemma ExecuteKeepsConsistent(cfg: Config, st: BotState, s: Signal, size: real, draw: real, baseProfitPct: real)
    requires Consistent(st)
    ensures Consistent(Execute(cfg, st, s, size, draw, baseProfitPct).after)
  {
    var r := Execute(cfg, st, s, size, draw, baseProfitPct);
    var n := |st.tradeHistory|;
    var t := r.after.tradeHistory[n];
    assert r.after.tradeHistory == st.tradeHistory + [t];
    NetProfitAppend(st.tradeHistory, n, t);
    NetProfitAppend(st.tradeHistory, st.tradesToday, t);
    assert st.tradeHistory[n - n..] == st.tradeHistory;
    assert r.after.tradeHistory[n + 1 - (n + 1)..] == r.after.tradeHistory;
  }

  /** Every call of `trade` keeps the state consistent. */
  lemma TradeStepKeepsConsistent(cfg: Config, st: BotState, s: Signal, draw: real, baseProfitPct: real)
    requires Consistent(st)
    ensures Consistent(TradeStep(cfg, st, s, draw, baseProfitPct).after)
  {
    if Gate(cfg, st, s).None? {
      var size := PositionSize(cfg, st.capital, st.initialCapital, st.peakCapital, s).value;
      ExecuteKeepsConsistent(cfg, st, s, size, draw, baseProfitPct);
    }
  }

  /** Every daily reset keeps the state consistent. */
  lemma ResetStepKeepsConsistent(st: BotState)
    requires Consistent(st)
    ensures Consistent(ResetStep(st))
  {
    var r := ResetStep(st);
    assert TodaysTrades(r) == [];
    forall i | 0 <= i < |r.dailyPnlHistory|
      ensures r.worstDailyReturn <= r.dailyPnlHistory[i].dailyReturn <= r.bestDailyReturn
    {
      if i < |st.dailyPnlHistory| {
        assert r.dailyPnlHistory[i] == st.dailyPnlHistory[i];
      }
    }
  }

  /**
   * With a non-negative capital at or below the peak and a non-negative stop
   * loss, a trade leaves the capital at or below the peak: a win moves the
   * peak up to the capital, a loss cannot raise the capital.
   */
  lemma TradeKeepsCapitalBelowPeak(cfg: Config, st: BotState, s: Signal, draw: real, baseProfitPct: real)
    requires 0.0 <= st.capital <= st.peakCapital
    requires cfg.stopLoss >= 0.0
    ensures var r := TradeStep(cfg, st, s, draw, baseProfitPct);
      r.after.capital <= r.after.peakCapital
  {
    var r := TradeStep(cfg, st, s, draw, baseProfitPct);
    if r.outcome.Loss? {
      var size := PositionSize(cfg, st.capital, st.initialCapital, st.peakCapital, s).value;
      var pct := LossPercentage(cfg.stopLoss, Classify(s.RegimeName()));
      assert r == Execute(cfg, st, s, size, draw, baseProfitPct);
      assert r.outcome.pct == pct;
      MulMonotone(size, 0.0, pct);
    }
  }
}
