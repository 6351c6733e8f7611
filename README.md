# StandardBot in Dafny

A model of `StandardBot`, the conservative trading simulator in
`standard_v1.py`. The bot keeps its capital, its initial and peak capital,
the day's profit and trade count, a trade history, a daily history and the
best and worst daily return. It offers four operations:

- `check_trade_conditions`: a seven-predicate signal filter, driven by a table of regimes.
- `calculate_position_size`: a Kelly fraction, or a fraction carried by the signal, scaled by a chain of multipliers and clamped to 0.5%–4% of the capital.
- `trade`: an ordered sequence of gates, then one win or one loss.
- `reset_daily_stats` and `get_status`.

Layout, by file:

| file | module | what it holds |
|---|---|---|
| wrappers.dfy | `Wrappers`, `RealMath` | `Option`, `Result` (the `ZeroDivisionError` path), min/max/abs, a guarded ratio |
| config.dfy | `Config` | the keyword options of the constructor and their defaults |
| signals.dfy | `Signals` | the signal record with the default of every absent field, regime labels |
| filter.dfy | `SignalFilter` | `check_trade_conditions` |
| sizing.dfy | `PositionSizing` | `calculate_position_size` |
| execution.dfy | `Execution` | the bot's state as a value, the gates, one trade, the daily reset, the `Consistent` invariant |
| reporting.dfy | `Reporting` | `get_status` as numbers |
| bot.dfy | `Bot` | `class StandardBot`, whose methods update its fields in place and are proved against the functions of `Execution` and `Reporting` |
| simulation.dfy | `Simulation` | sequences of trades and resets, and what every such sequence preserves |
| scenarios.dfy | `Scenarios` | a worked example under the default settings |

The filter, the sizer and the status report only read state, so they are
functions. `trade` and `reset_daily_stats` update fields, so they are methods
of the class. Each one's `ensures` ties the new fields to a specification
function (`TradeStep`, `Execute`, `ResetStep`), and the class invariant
`Valid()` (the state is `Consistent`) is kept by every method.

The two random draws of `trade` are parameters:
- `draw` stands for `random.random()` and lies in [0, 1);
- `baseProfitPct` stands for `random.uniform(0.015, 0.035)`.

Python raises `ZeroDivisionError` in two places:
- on an initial capital of 0, at the drawdown of `trade` and of the sizer;
- on an `avg_win` of 0 in the Kelly formula.

Both are modelled as the outcome `DivisionByZero`, which leaves every field unchanged. The exception is raised before any field is written.

The model follows the code as written:
- `daily_mult` (lines 92-98) is computed but never multiplied into the size (line 114), so the model does not apply it;
- the minimum-target gate is tested before the maximum-target gate (lines 131-134), and the model keeps that order. Testing them in the other order would give the same outcome for every input.

## Model

| member | source | states |
|---|---|---|
| Signals.Classify | standard_v1.py:42-61 | a regime label is one of the five listed regimes exactly when it is that regime's label; every other label, "unknown" included, is unlisted |
| SignalFilter.ScoreThreshold | standard_v1.py:45-62 | the score threshold lies in [0.5, 0.8] and is 0.6 without regime adaptation or for an unlisted regime |
| SignalFilter.TrendThreshold | standard_v1.py:47-63 | the trend threshold lies in [0.25, 0.6] and is 0.35 without regime adaptation or for an unlisted regime |
| SignalFilter.AllTrueIff | standard_v1.py:69 | `all` of a list is true iff every element is true |
| SignalFilter.AcceptsIff | standard_v1.py:35-69 | the filter accepts iff all seven predicates hold, each with its default when the field is absent |
| SignalFilter.FixedThresholdsWhenNotAdapted | standard_v1.py:45-69 | without regime adaptation, or with it for an unlisted regime, the filter accepts iff score > 0.6, abs(trend) > 0.35 and the other five predicates hold |
| SignalFilter.MissingConfidenceRejected | standard_v1.py:41-49 | a signal without `ai_confidence` counts as 0.5 and is rejected whenever the threshold exceeds 0.5 |
| PositionSizing.Kelly | standard_v1.py:82-83 | the Kelly fraction is at least 0.01, at most the risk per trade when that is at least 0.01, and exactly 0.01 otherwise |
| PositionSizing.BaseSize | standard_v1.py:73-85 | the base size fails with a division by zero exactly when the Kelly branch is taken with `avg_win` 0 |
| PositionSizing.ConfidenceMultiplier | standard_v1.py:88-89 | a confidence in [0, 1] gives a multiplier in [0.5, 1] |
| PositionSizing.DrawdownMultiplier | standard_v1.py:101-102 | the drawdown multiplier is at least 0.5, and at most 1 for a non-negative drawdown |
| PositionSizing.PeakMultiplier | standard_v1.py:105-106 | the peak multiplier is at least 0.6, and at most 1 when the capital lies between 0 and the peak |
| PositionSizing.PositionSize | standard_v1.py:71-120 | the size fails exactly when the initial capital is 0 or the Kelly branch divides by an `avg_win` of 0; otherwise it is at least 0.5% of the capital, at most 4% when the capital is non-negative, and the unclamped size when that already lies in the band |
| Execution.SuccessProbability | standard_v1.py:154-166 | the success probability lies in [0.50, 0.85] for every confidence and regime |
| Execution.ConfidenceBonus | standard_v1.py:174 | the bonus is non-negative iff the confidence is at least -4.5, and at least 1 iff the confidence is at least 0.5 |
| Execution.WinPercentage | standard_v1.py:171-185 | a win's profit fraction is at most 4.5% |
| Execution.WinPercentageBounds | standard_v1.py:171-185 | with a drawn base in [0.015, 0.035], the profit fraction is non-negative when the bonus is, and at least 1.35% when the confidence is at least 0.5 |
| Execution.LossPercentage | standard_v1.py:213-225 | a loss fraction is at most 2.5%, and non-negative for a non-negative stop loss |
| Execution.Gate | standard_v1.py:124-146 | the first failing gate names the stop: the limit iff the day's trades reached the maximum; the minimum target iff under the limit with the target ≤ daily return < maximum target; the maximum target iff under the limit with the daily return ≥ the maximum target; the drawdown iff the earlier gates pass and the drawdown exceeds the maximum; the filter iff the earlier gates pass and it rejects; a division by zero iff the earlier gates pass and the initial capital is 0 or the Kelly branch meets an `avg_win` of 0; no stop is a trade; every gate passes iff none of these holds |
| Execution.Execute | standard_v1.py:146-244 | a trade wins iff the draw is below the success probability; it adds one to the day's trades; it appends one record and keeps the old history as a prefix; the record holds the size, confidence, regime and the trade's fraction; capital and daily profit move by the record's signed amount, which is size times the fraction; a win's fraction is `WinPercentage` of the drawn base, confidence and regime, a loss's is `LossPercentage` of the stop loss and regime; a win lifts the peak to the new capital, a loss leaves it; nothing else changes |
| Execution.TradeStep | standard_v1.py:122-244 | the limit outcome comes iff the limit is reached, whatever the signal; every outcome other than a trade leaves the state unchanged; a trade happens iff every gate passes; a call that does not trade reports exactly the stop `Gate` names; a call that trades is `Execute` with the size `PositionSize` returns; the peak never decreases |
| Execution.ResetStep | standard_v1.py:246-262 | the day's profit and trade count become 0; one summary of the day's return, profit and trades is appended iff the capital is positive; the earlier history is kept; with a positive capital the best and worst become the running max and min with the day's return; with a capital ≤ 0 nothing but the two counters changes; capital, peak and trade history are unchanged |
| Execution.InitialStateConsistent | standard_v1.py:7-33 | a freshly built bot satisfies the invariant |
| Execution.ExecuteKeepsConsistent | standard_v1.py:187-242 | an executed trade keeps the capital equal to the initial capital plus the net profit of every trade, and the day's profit equal to the net profit of the day's trades |
| Execution.TradeStepKeepsConsistent | standard_v1.py:122-244 | every call of `trade` keeps the invariant |
| Execution.ResetStepKeepsConsistent | standard_v1.py:246-262 | every daily reset keeps the invariant, including worst ≤ 0 ≤ best and every logged return between them |
| Execution.TradeKeepsCapitalBelowPeak | standard_v1.py:187-229 | with a capital between 0 and the peak and a non-negative stop loss, a trade leaves the capital at or below the peak |
| Reporting.RecentTrades | standard_v1.py:271 | the window is the last min(30, n) trades |
| Reporting.CountWins | standard_v1.py:272 | the win count is at most the number of trades; it equals it iff every trade won, and is 0 iff every trade lost |
| Reporting.WinRate | standard_v1.py:271-273 | the win rate lies in [0, 1] and is 0 for an empty history; its relation to the wins of the window is stated in `Reporting.WinRateCountsWins` and `Reporting.WinRateOfRecent` |
| Reporting.WinRateCountsWins | standard_v1.py:271-273 | over a non-empty history the win rate is the number of wins among the last min(30, n) trades over that window's length |
| Reporting.WinRateOfRecent | standard_v1.py:271-273 | over a non-empty history the win rate is 0 iff every trade of the window lost, and 1 iff every one of them won |
| Reporting.AvgDailyReturn | standard_v1.py:276 | the average is 0 without days, and otherwise times the number of days gives the sum of the returns |
| Reporting.Status | standard_v1.py:264-298 | total trades is the history length; win rate in [0, 1] and 0 without trades; average 0 without days; target progress 0 for a non-positive target; daily return 0 for a non-positive capital; drawdown and total return 0 for a non-positive initial capital; the win rate is `WinRate` of the history and the average is `AvgDailyReturn` of the daily history; capital, initial capital, peak, the day's trades, both targets and the best and worst day are the bot's own values |
| Reporting.StatusRatios | standard_v1.py:266-286 | the drawdown is the total return negated, and for a positive target the target progress is the daily return over the target, times 100 |
| Reporting.AverageWithinBestAndWorst | standard_v1.py:248-276 | in a consistent state the average daily return lies between the worst and the best day |
| Reporting.TotalReturnIsNetProfit | standard_v1.py:267 | in a consistent state the total return is the net profit of all trades over the initial capital |
| Reporting.DailyReturnIsTodaysProfit | standard_v1.py:268 | in a consistent state with positive capital the daily return is the net profit of the day's trades over the capital |
| Bot.StandardBot.constructor | standard_v1.py:7-33 | the options resolve to their defaults, the capital, peak and initial capital are equal, the histories are empty, and the invariant holds |
| Bot.StandardBot.Trade | standard_v1.py:122-244 | the outcome and new fields are those of `TradeStep`; a call that does not trade changes no field; a trade adds exactly one to the count and one record; the peak never decreases; the invariant is kept |
| Bot.StandardBot.ExecuteTrade | standard_v1.py:146-244 | the outcome and new fields are those of `Execute`; the invariant is kept |
| Bot.StandardBot.ResetDailyStats | standard_v1.py:246-262 | the new fields are those of `ResetStep`: counters zeroed, one summary iff the capital was positive; the invariant is kept |
| Bot.StandardBot.GetStatus | standard_v1.py:264-298 | the report is `Status` of the current fields, changes nothing, and has a win rate in [0, 1] |
| Simulation.RunKeepsConsistent | standard_v1.py:122-262 | every sequence of trades and resets keeps the invariant |
| Simulation.RunIsMonotone | standard_v1.py:122-262 | over any sequence of calls the peak and the best return never fall, the worst never rises, and the initial capital stays |
| Simulation.WinKeepsSolvent | standard_v1.py:171-193 | a win of a non-negative size, with a confidence of at least -4.5 and a drawn base profit in [0.015, 0.035], keeps a capital between 0 and the peak there |
| Simulation.LossKeepsSolvent | standard_v1.py:213-229 | with a non-negative stop loss, a loss on a size between 0 and 4% of the capital keeps the capital between 0 and the peak |
| Simulation.TradeKeepsSolvent | standard_v1.py:122-244 | with a non-negative stop loss, a confidence threshold of at least -4.5 and a drawn base profit in [0.015, 0.035], a trade from a capital between 0 and the peak keeps it there |
| Simulation.RunKeepsSolvent | standard_v1.py:122-262 | with a non-negative stop loss and a confidence threshold of at least -4.5, every sequence of calls with in-range draws from a capital between 0 and the peak keeps it there |
| Simulation.ReachableStates | standard_v1.py:7-262 | with a non-negative stop loss, a confidence threshold of at least -4.5 and a non-negative starting capital, every state reached by calls with in-range draws is consistent, with the capital between 0 and the peak |
| Scenarios.BullSignalTradesOnce | standard_v1.py:35-244 | a fresh bot with 10000 and default settings accepts a strong bull-trend signal, sizes it in [50, 400], and executes one trade that moves the capital by the logged amount |
| Scenarios.DrawdownStopsTrade | standard_v1.py:136-139 | a bot built with 1000 and down to 940 under default settings stops every call with a drawdown of 0.06 and changes nothing |

## Left out

- Timestamps and dates (lines 199, 234, 251, 297): they read the clock, so the records and summaries carry no time.
- Message strings and percent formatting: `trade` returns a `TradeOutcome` and `get_status` returns numbers. This also leaves out the `daily_profit / capital` inside the win and loss messages (lines 209, 244). That division would raise `ZeroDivisionError` after the fields are updated if a trade left the capital at exactly 0; the model reports the trade instead.
- Floating point: every quantity is a `real`, so no claim depends on rounding.
- `risk_mode` (line 7), `emergency_stop_dd` (line 20), `momentum` (line 150) and `daily_mult` (lines 92-98): they are never used.
- The constant fields of the status (`strategy`, `ai_enhanced`, `risk_level`): there is nothing in them to prove.
- The random generator: the two draws are parameters with their ranges as preconditions.
- Signal values of the wrong type: a signal field is either absent or holds a value of its type. A `regime` that is `None` or not a string is only ever looked up with `.get` (lines 61, 165, 184, 224), so it behaves as an unlisted label; the model stands for it with any unlisted string, except that the record logs that string rather than the original value (line 205). A numeric field present with the value `None` raises `TypeError` only where it is read; `win_probability`, `avg_win` and `position_size` are not read on the branch of lines 73-85 that does not use them.
- Concurrency: the bot belongs to one caller.
