/** Sequences of calls on one bot, and what every such sequence preserves. */
module Simulation {
  import opened RealMath
  import opened Config
  import opened Signals
  import opened SignalFilter
  import opened PositionSizing
  import opened Execution

  /** One call on the bot: a trade with its two random draws, or a daily reset. */
  datatype Event = TradeEvent(signal: Signal, draw: real, baseProfitPct: real) | DailyReset

  function Apply(cfg: Config, st: BotState, e: Event): BotState {
    match e
    case TradeEvent(s, draw, baseProfitPct) => TradeStep(cfg, st, s, draw, baseProfitPct).after
    case DailyReset => ResetStep(st)
  }

  /** The state after the events, in order. */
  function Run(cfg: Config, st: BotState, events: seq<Event>): BotState
    decreases |events|
  {
    if |events| == 0 then st else Run(cfg, Apply(cfg, st, events[0]), events[1..])
  }

  /** The draws lie in the ranges `random.random()` and `random.uniform(0.015, 0.035)` return. */
  predicate DrawsInRange(events: seq<Event>) {
    forall i :: 0 <= i < |events| && events[i].TradeEvent? ==>
      0.0 <= events[i].draw < 1.0 && 0.015 <= events[i].baseProfitPct <= 0.035
  }

  /** Every sequence of calls keeps the state consistent. */
  lemma {:induction false} RunKeepsConsistent(cfg: Config, st: BotState, events: seq<Event>)
    requires Consistent(st)
    ensures Consistent(Run(cfg, st, events))
    decreases |events|
  {
    if |events| > 0 {
      match events[0] {
        case TradeEvent(s, draw, baseProfitPct) => TradeStepKeepsConsistent(cfg, st, s, draw, baseProfitPct);
        case DailyReset => ResetStepKeepsConsistent(st);
      }
      RunKeepsConsistent(cfg, Apply(cfg, st, events[0]), events[1..]);
    }
  }

  /** The peak never decreases, the best daily return never falls and the worst never rises. */
  lemma {:induction false} RunIsMonotone(cfg: Config, st: BotState, events: seq<Event>)
    ensures Run(cfg, st, events).peakCapital >= st.peakCapital
    ensures Run(cfg, st, events).bestDailyReturn >= st.bestDailyReturn
    ensures Run(cfg, st, events).worstDailyReturn <= st.worstDailyReturn
    ensures Run(cfg, st, events).initialCapital == st.initialCapital
    decreases |events|
  {
    if |events| > 0 {
      RunIsMonotone(cfg, Apply(cfg, st, events[0]), events[1..]);
    }
  }

  /**
   * Settings under which a trade never takes the capital below 0: a
   * non-negative stop loss, and a confidence threshold that keeps the
   * confidence bonus of every accepted signal non-negative.
   */
  predicate Prudent(cfg: Config) {
    cfg.stopLoss >= 0.0 && cfg.confidenceThreshold >= -4.5
  }

  /** The capital is non-negative and at most the peak. */
  predicate Solvent(st: BotState) {
    0.0 <= st.capital <= st.peakCapital
  }

  /**
   * Under prudent settings a trade keeps the state solvent: a win adds a
   * non-negative profit and moves the peak up to the capital; a loss takes
   * off at most 2.5% of at most 4% of the capital.
   */
  lemma TradeKeepsSolvent(cfg: Config, st: BotState, s: Signal, draw: real, baseProfitPct: real)
    requires Prudent(cfg) && Solvent(st)
    requires 0.015 <= baseProfitPct <= 0.035
    ensures Solvent(TradeStep(cfg, st, s, draw, baseProfitPct).after)
  {
    if Gate(cfg, st, s).None? {
      var size := PositionSize(cfg, st.capital, st.initialCapital, st.peakCapital, s).value;
      AcceptsIff(cfg, s);
      if draw < SuccessProbability(s.Confidence(), Classify(s.RegimeName())) {
        WinKeepsSolvent(st, s, size, baseProfitPct);
      } else {
        LossKeepsSolvent(cfg, st, s, size);
      }
    }
  }

  lemma WinKeepsSolvent(st: BotState, s: Signal, size: real, baseProfitPct: real)
    requires Solvent(st) && size >= 0.0 && s.Confidence() >= -4.5
    requires 0.015 <= baseProfitPct <= 0.035
    ensures Solvent(WinStep(st, s, size, baseProfitPct).after)
  {
    var pct := WinPercentage(baseProfitPct, s.Confidence(), Classify(s.RegimeName()));
    WinPercentageBounds(baseProfitPct, s.Confidence(), Classify(s.RegimeName()));
    MulMonotone(size, 0.0, pct);
    var after := WinStep(st, s, size, baseProfitPct).after;
    assert after.capital == st.capital + size * pct;
  }

  lemma LossKeepsSolvent(cfg: Config, st: BotState, s: Signal, size: real)
    requires Solvent(st) && 0.0 <= size <= 0.04 * st.capital && cfg.stopLoss >= 0.0
    ensures Solvent(LossStep(cfg, st, s, size).after)
  {
    var pct := LossPercentage(cfg.stopLoss, Classify(s.RegimeName()));
    assert 0.0 <= pct <= 0.025;
    LossBound(size, pct, st.capital);
    var loss := size * pct;
    var after := LossStep(cfg, st, s, size).after;
    assert after.capital == st.capital - loss && after.peakCapital == st.peakCapital;
  }

  /** A loss of at most 2.5% on at most 4% of the capital is at most 0.1% of it. */
  lemma LossBound(size: real, pct: real, capital: real)
    requires 0.0 <= size <= 0.04 * capital && 0.0 <= pct <= 0.025
    ensures 0.0 <= size * pct <= 0.001 * capital
  {
    assert size * pct <= size * 0.025 by {
      MulMonotone(size, pct, 0.025);
    }
    assert size * pct >= 0.0 by {
      MulMonotone(size, 0.0, pct);
    }
    assert size * 0.025 <= 0.001 * capital;
  }

  /** Under prudent settings every sequence of calls with in-range draws keeps the state solvent. */
  lemma {:induction false} RunKeepsSolvent(cfg: Config, st: BotState, events: seq<Event>)
    requires Prudent(cfg) && Solvent(st) && DrawsInRange(events)
    ensures Solvent(Run(cfg, st, events))
    decreases |events|
  {
    if |events| > 0 {
      match events[0] {
        case TradeEvent(s, draw, baseProfitPct) => TradeKeepsSolvent(cfg, st, s, draw, baseProfitPct);
        case DailyReset =>
      }
      assert DrawsInRange(events[1..]) by {
        forall i | 0 <= i < |events[1..]| && events[1..][i].TradeEvent?
          ensures 0.0 <= events[1..][i].draw < 1.0 && 0.015 <= events[1..][i].baseProfitPct <= 0.035
        {
          assert events[1..][i] == events[i + 1];
        }
      }
      RunKeepsSolvent(cfg, Apply(cfg, st, events[0]), events[1..]);
    }
  }

  /**
   * From a bot built with a non-negative capital and prudent settings, every
   * reachable state is consistent, and its capital is non-negative and at most
   * its peak.
   */
  lemma ReachableStates(cfg: Config, capital: real, events: seq<Event>)
    requires Prudent(cfg) && capital >= 0.0 && DrawsInRange(events)
    ensures var st := Run(cfg, InitialState(capital), events);
      Consistent(st) && 0.0 <= st.capital <= st.peakCapital
  {
    InitialStateConsistent(capital);
    RunKeepsConsistent(cfg, InitialState(capital), events);
    RunKeepsSolvent(cfg, InitialState(capital), events);
  }
}
