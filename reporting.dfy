/** The read-only status snapshot (`get_status`), as raw numbers rather than formatted strings. */
module Reporting {
  import opened RealMath
  import opened Config
  import opened Execution

  /** The numeric fields of the status snapshot; ratios are fractions, not percent strings. */
  datatype StatusReport = StatusReport(
    capital: real,
    initialCapital: real,
    totalReturn: real,
    dailyReturn: real,
    dailyMinTarget: real,
    dailyMaxTarget: real,
    targetProgress: real,    // percent of the minimum daily target reached
    drawdown: real,
    tradesToday: int,
    totalTrades: int,
    winRate: real,
    avgDailyReturn: real,
    bestDaily: real,
    worstDaily: real,
    peakCapital: real)

  /** How many trades the win rate looks back over: 30, or all when there are fewer. */
  function WindowLength(n: nat): nat {
    if n >= 30 then 30 else n
  }

  /** The last 30 trades, or all of them when there are fewer. */
  function RecentTrades(ts: seq<TradeRecord>): (r: seq<TradeRecord>)
    ensures |r| == WindowLength(|ts|)
    ensures r == ts[|ts| - |r|..]
  {
    if |ts| >= 30 then ts[|ts| - 30..] else ts
  }

  /** The number of winning trades. */
  function CountWins(ts: seq<TradeRecord>): (n: nat)
    ensures n <= |ts|
    ensures n == |ts| <==> forall i :: 0 <= i < |ts| ==> ts[i].side == Winning
    ensures n == 0 <==> forall i :: 0 <= i < |ts| ==> ts[i].side == Losing
  {
    if |ts| == 0 then 0
    else CountWins(ts[..|ts| - 1]) + (if ts[|ts| - 1].side == Winning then 1 else 0)
  }

  /** The share of wins among the recent trades; 0 without trades. */
  function WinRate(ts: seq<TradeRecord>): (rate: real)
    ensures 0.0 <= rate <= 1.0
    ensures |ts| == 0 ==> rate == 0.0
  {
    var recent := RecentTrades(ts);
    if |recent| == 0 then 0.0
    else
      var wins := CountWins(recent);
      RatioOfCounts(wins, |recent|);
      (wins as real) / (|recent| as real)
  }

  /** The sum of the logged daily returns. */
  function SumReturns(days: seq<DailySummary>): real {
    if |days| == 0 then 0.0 else SumReturns(days[..|days| - 1]) + days[|days| - 1].dailyReturn
  }

  /** Over a non-empty history the win rate is the number of wins in the window over its length. */
  lemma WinRateCountsWins(ts: seq<TradeRecord>)
    requires |ts| > 0
    ensures WinRate(ts) == (CountWins(RecentTrades(ts)) as real) / (|RecentTrades(ts)| as real)
  {
  }

  /**
   * Over a non-empty history the win rate is 0 exactly when every trade of the
   * window lost, and 1 exactly when every one of them won.
   */
  lemma WinRateOfRecent(ts: seq<TradeRecord>)
    requires |ts| > 0
    ensures WinRate(ts) == 0.0 <==> forall i :: 0 <= i < |RecentTrades(ts)| ==> RecentTrades(ts)[i].side == Losing
    ensures WinRate(ts) == 1.0 <==> forall i :: 0 <= i < |RecentTrades(ts)| ==> RecentTrades(ts)[i].side == Winning
  {
    var recent := RecentTrades(ts);
    QuotientOfCounts(CountWins(recent), |recent|);
  }

  /** A count over a positive total is 0 exactly when the count is, and 1 exactly when they are equal. */
  lemma QuotientOfCounts(a: nat, b: nat)
    requires 0 < b
    ensures (a as real) / (b as real) == 0.0 <==> a == 0
    ensures (a as real) / (b as real) == 1.0 <==> a == b
  {
    var x, y := a as real, b as real;
    assert (x / y) * y == x;
  }

  /** The mean of the logged daily returns; 0 without any. */
  function AvgDailyReturn(days: seq<DailySummary>): (avg: real)
    ensures |days| == 0 ==> avg == 0.0
    ensures |days| > 0 ==> avg * (|days| as real) == SumReturns(days)
  {
    if |days| == 0 then 0.0 else SumReturns(days) / (|days| as real)
  }

  /** The snapshot `get_status` reports. */
  function Status(cfg: Config, st: BotState): (r: StatusReport)
    ensures r.totalTrades == |st.tradeHistory|
    ensures 0.0 <= r.winRate <= 1.0 && (|st.tradeHistory| == 0 ==> r.winRate == 0.0)
    ensures |st.dailyPnlHistory| == 0 ==> r.avgDailyReturn == 0.0
    ensures cfg.targetReturn <= 0.0 ==> r.targetProgress == 0.0
    ensures st.capital <= 0.0 ==> r.dailyReturn == 0.0
    ensures st.initialCapital <= 0.0 ==> r.drawdown == 0.0 && r.totalReturn == 0.0
    ensures r.winRate == WinRate(st.tradeHistory) && r.avgDailyReturn == AvgDailyReturn(st.dailyPnlHistory)
    ensures r.capital == st.capital && r.initialCapital == st.initialCapital && r.peakCapital == st.peakCapital
    ensures r.tradesToday == st.tradesToday
    ensures r.dailyMinTarget == cfg.targetReturn && r.dailyMaxTarget == cfg.maxTargetReturn
    ensures r.bestDaily == st.bestDailyReturn && r.worstDaily == st.worstDailyReturn
  {
    var drawdown := GuardedRatio(st.initialCapital - st.capital, st.initialCapital);
    var totalReturn := GuardedRatio(st.capital - st.initialCapital, st.initialCapital);
    var dailyReturn := DailyReturn(st);
    StatusReport(
      st.capital,
      st.initialCapital,
      totalReturn,
      dailyReturn,
      cfg.targetReturn,
      cfg.maxTargetReturn,
      GuardedRatio(dailyReturn, cfg.targetReturn) * 100.0,
      drawdown,
      st.tradesToday,
      |st.tradeHistory|,
      WinRate(st.tradeHistory),
      AvgDailyReturn(st.dailyPnlHistory),
      st.bestDailyReturn,
      st.worstDailyReturn,
      st.peakCapital)
  }

  /**
   * The drawdown is the total return negated, and the target progress is the
   * daily return as a percentage of a positive target.
   */
  lemma StatusRatios(cfg: Config, st: BotState)
    ensures Status(cfg, st).drawdown == -Status(cfg, st).totalReturn
    ensures cfg.targetReturn > 0.0 ==>
      Status(cfg, st).targetProgress == Status(cfg, st).dailyReturn / cfg.targetReturn * 100.0
  {
    var r := Status(cfg, st);
    var gain := st.capital - st.initialCapital;
    assert r.totalReturn == GuardedRatio(gain, st.initialCapital);
    assert r.drawdown == GuardedRatio(-gain, st.initialCapital);
    NegatedRatio(gain, st.initialCapital);
    assert r.targetProgress == GuardedRatio(r.dailyReturn, cfg.targetReturn) * 100.0;
  }

  lemma NegatedRatio(x: real, y: real)
    ensures GuardedRatio(-x, y) == -GuardedRatio(x, y)
  {
  }

  /** A count over a positive total at least as large is a ratio in [0, 1]. */
  lemma RatioOfCounts(a: nat, b: nat)
    requires 0 < b && a <= b
    ensures 0.0 <= (a as real) / (b as real) <= 1.0
    ensures a == 0 ==> (a as real) / (b as real) == 0.0
  {
    var x, y := a as real, b as real;
    var q := x / y;
    assert q * y == x;
    assert (q - 1.0) * y == x - y <= 0.0;
  }

  /** A sum of returns that each lie in [lo, hi] lies in [n * lo, n * hi]. */
  lemma {:induction false} SumReturnsBounds(days: seq<DailySummary>, lo: real, hi: real)
    requires forall i :: 0 <= i < |days| ==> lo <= days[i].dailyReturn <= hi
    ensures (|days| as real) * lo <= SumReturns(days) <= (|days| as real) * hi
  {
    if |days| > 0 {
      SumReturnsBounds(days[..|days| - 1], lo, hi);
    }
  }

  /** In a consistent state the average daily return lies between the worst and the best day. */
  lemma AverageWithinBestAndWorst(cfg: Config, st: BotState)
    requires Consistent(st)
    ensures st.worstDailyReturn <= Status(cfg, st).avgDailyReturn <= st.bestDailyReturn
  {
    var days := st.dailyPnlHistory;
    var n := |days| as real;
    SumReturnsBounds(days, st.worstDailyReturn, st.bestDailyReturn);
    if |days| > 0 {
      var avg := AvgDailyReturn(days);
      assert avg * n == SumReturns(days);
      assert n * st.worstDailyReturn <= avg * n <= n * st.bestDailyReturn;
    }
  }

  /** In a consistent state the total return is the net profit of every trade over the initial capital. */
  lemma TotalReturnIsNetProfit(cfg: Config, st: BotState)
    requires Consistent(st) && st.initialCapital > 0.0
    ensures Status(cfg, st).totalReturn == NetProfit(st.tradeHistory) / st.initialCapital
  {
  }

  /** In a consistent state with positive capital the daily return is today's net profit over the capital. */
  lemma DailyReturnIsTodaysProfit(cfg: Config, st: BotState)
    requires Consistent(st) && st.capital > 0.0
    ensures Status(cfg, st).dailyReturn == NetProfit(TodaysTrades(st)) / st.capital
  {
  }
}
