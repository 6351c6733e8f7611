/** The bot's configuration: the keyword options of its constructor and their defaults. */
module Config {
  import opened Wrappers

  /** The recognised keyword options; an absent option takes its default. */
  datatype Options = Options(
    targetReturn: Option<real>,
    maxTargetReturn: Option<real>,
    maxDrawdown: Option<real>,
    stopLoss: Option<real>,
    maxRisk: Option<real>,
    maxDailyTrades: Option<int>,
    adaptiveSizing: Option<bool>,
    confidenceThreshold: Option<real>,
    regimeAdaptation: Option<bool>)

  /** No keyword options at all: every setting takes its default. */
  const NoOptions := Options(None, None, None, None, None, None, None, None, None)

  /** The settings the bot reads; none of them changes after construction. */
  datatype Config = Config(
    targetReturn: real,          // minimum daily return target
    maxTargetReturn: real,       // maximum daily return target
    maxDrawdown: real,           // drawdown from initial capital beyond which trading stops
    stopLoss: real,              // base loss fraction of a losing trade
    maxRiskPerTrade: real,       // upper clamp of the Kelly fraction
    maxTradesDaily: int,         // trades allowed between two daily resets
    useAiSizing: bool,           // honour a position size carried by the signal
    confidenceThreshold: real,   // least AI confidence the filter accepts
    regimeAdaptation: bool)      // use the regime table for score and trend thresholds

  /** Drawdown beyond which position sizes are cut to 60%. */
  const SizeReductionDrawdown: real := 0.035

  /** Resolves the keyword options against their defaults. */
  function Resolve(o: Options): Config {
    Config(
      o.targetReturn.GetOr(0.02),
      o.maxTargetReturn.GetOr(0.05),
      o.maxDrawdown.GetOr(0.05),
      o.stopLoss.GetOr(0.01),
      o.maxRisk.GetOr(0.03),
      o.maxDailyTrades.GetOr(12),
      o.adaptiveSizing.GetOr(true),
      o.confidenceThreshold.GetOr(0.65),
      o.regimeAdaptation.GetOr(true))
  }

  /** The configuration of a bot built without keyword options. */
  const DefaultConfig := Resolve(NoOptions)
}
