/** The bot itself: one object whose fields `trade` and `reset_daily_stats` update in place. */
module Bot {
  import opened Config
  import opened Signals
  import opened SignalFilter
  import opened PositionSizing
  import opened Execution
  import opened Reporting

  class StandardBot {
    const config: Config
    const initialCapital: real
    var capital: real
    var peakCapital: real
    var dailyProfit: real
    var tradesToday: int
    var tradeHistory: seq<TradeRecord>
    var dailyPnlHistory: seq<DailySummary>
    var bestDailyReturn: real
    var worstDailyReturn: real

    /** The fields as one value. */
    function State(): BotState
      reads this
    {
      BotState(capital, initialCapital, peakCapital, dailyProfit, tradesToday,
               tradeHistory, dailyPnlHistory, bestDailyReturn, worstDailyReturn)
    }

    /** The object invariant: the fields form a consistent state. */
    ghost predicate Valid()
      reads this
    {
      Consistent(State())
    }

    /** A bot with `capital`, its peak and its initial capital all equal, and empty histories. */
    constructor (capital: real, options: Options)
      ensures Valid()
      ensures config == Resolve(options)
      ensures State() == InitialState(capital)
    {
      config := Resolve(options);
      initialCapital := capital;
      this.capital := capital;
      peakCapital := capital;
      dailyProfit := 0.0;
      tradesToday := 0;
      tradeHistory := [];
      dailyPnlHistory := [];
      bestDailyReturn := 0.0;
      worstDailyReturn := 0.0;
      new;
      InitialStateConsistent(capital);
    }

    /**
     * One trade attempt. `draw` is the value of `random.random()` and
     * `baseProfitPct` that of `random.uniform(0.015, 0.035)`.
     */
    method Trade(signal: Signal, draw: real, baseProfitPct: real) returns (outcome: TradeOutcome)
      requires Valid()
      requires 0.0 <= draw < 1.0
      requires 0.015 <= baseProfitPct <= 0.035
      modifies this
      ensures Valid()
      ensures Step(outcome, State()) == TradeStep(config, old(State()), signal, draw, baseProfitPct)
      ensures !outcome.Executed() ==> unchanged(this)
      ensures outcome.Executed() ==> tradesToday == old(tradesToday) + 1 && |tradeHistory| == |old(tradeHistory)| + 1
      ensures peakCapital >= old(peakCapital)
    {
      if tradesToday >= config.maxTradesDaily {
        return LimitReached;
      }
      var dailyReturn := if capital > 0.0 then dailyProfit / capital else 0.0;
      if dailyReturn >= config.targetReturn && dailyReturn < config.maxTargetReturn {
        return MinTargetReached(dailyReturn);
      } else if dailyReturn >= config.maxTargetReturn {
        return MaxTargetReached(dailyReturn);
      }
      if initialCapital == 0.0 {
        return DivisionByZero;
      }
      var currentDrawdown := (initialCapital - capital) / initialCapital;
      if currentDrawdown > config.maxDrawdown {
        return DrawdownExceeded(currentDrawdown);
      }
      if !CheckTradeConditions(config, signal) {
        return FiltersNotMet;
      }
      var sized := PositionSize(config, capital, initialCapital, peakCapital, signal);
      if sized.ZeroDivisionError? {
        return DivisionByZero;
      }
      outcome := ExecuteTrade(signal, sized.value, draw, baseProfitPct);
    }

    /** The part of `trade` after every gate passed: one win or one loss of `positionSize`. */
    method ExecuteTrade(signal: Signal, positionSize: real, draw: real, baseProfitPct: real) returns (outcome: TradeOutcome)
      requires Valid()
      modifies this
      ensures Valid()
      ensures Step(outcome, State()) == Execute(config, old(State()), signal, positionSize, draw, baseProfitPct)
    {
      var confidence := signal.Confidence();
      var regime := signal.RegimeName();
      var successProb := SuccessProbability(confidence, Classify(regime));
      ghost var before := State();
      if draw < successProb {
        var profitPct := WinPercentage(baseProfitPct, confidence, Classify(regime));
        var profit := positionSize * profitPct;
        capital := capital + profit;
        dailyProfit := dailyProfit + profit;
        if capital > peakCapital {
          peakCapital := capital;
        }
        tradesToday := tradesToday + 1;
        tradeHistory := tradeHistory + [TradeRecord(Winning, positionSize, profit, profitPct, confidence, regime)];
        outcome := Win(profit, profitPct);
        ghost var w := WinStep(before, signal, positionSize, baseProfitPct);
        assert w.outcome == outcome;
        assert w.after.capital == capital;
        assert w.after.peakCapital == peakCapital;
        assert w.after.dailyProfit == dailyProfit;
        assert w.after.tradeHistory == tradeHistory;
        assert w.after.tradesToday == tradesToday;
        assert Step(outcome, State()) == w;
      } else {
        var lossPct := LossPercentage(config.stopLoss, Classify(regime));
        var loss := positionSize * lossPct;
        capital := capital - loss;
        dailyProfit := dailyProfit - loss;
        tradesToday := tradesToday + 1;
        tradeHistory := tradeHistory + [TradeRecord(Losing, positionSize, loss, lossPct, confidence, regime)];
        outcome := Loss(loss, lossPct);
        ghost var l := LossStep(config, before, signal, positionSize);
        assert l.outcome == outcome;
        assert l.after.capital == capital;
        assert l.after.dailyProfit == dailyProfit;
        assert l.after.tradeHistory == tradeHistory;
        assert l.after.tradesToday == tradesToday;
        assert Step(outcome, State()) == l;
      }
      assert Step(outcome, State()) == Execute(config, before, signal, positionSize, draw, baseProfitPct);
      ExecuteKeepsConsistent(config, before, signal, positionSize, draw, baseProfitPct);
    }

    /** Closes the day: logs it when the capital is positive and zeroes the day's counters. */
    method ResetDailyStats()
      requires Valid()
      modifies this
      ensures Valid()
      ensures State() == ResetStep(old(State()))
      ensures dailyProfit == 0.0 && tradesToday == 0
      ensures |dailyPnlHistory| == |old(dailyPnlHistory)| + (if old(capital) > 0.0 then 1 else 0)
    {
      ghost var before := State();
      if capital > 0.0 {
        var dailyReturn := dailyProfit / capital;
        dailyPnlHistory := dailyPnlHistory + [DailySummary(dailyReturn, dailyProfit, tradesToday)];
        bestDailyReturn := if bestDailyReturn >= dailyReturn then bestDailyReturn else dailyReturn;
        worstDailyReturn := if worstDailyReturn <= dailyReturn then worstDailyReturn else dailyReturn;
      }
      dailyProfit := 0.0;
      tradesToday := 0;
      ResetStepKeepsConsistent(before);
    }

    /** The status snapshot; it changes nothing. */
    method GetStatus() returns (report: StatusReport)
      ensures report == Status(config, State())
      ensures report.totalTrades == |tradeHistory|
      ensures 0.0 <= report.winRate <= 1.0
    {
      report := Status(config, State());
    }
  }
}
