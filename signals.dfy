/** The trading signal handed to the bot, with the defaults of its absent fields. */
module Signals {
  import opened Wrappers

  /** The market regimes the bot's tables list; every other label is `Unlisted`. */
  datatype Regime = TrendingBull | TrendingBear | Sideways | HighVolatility | LowVolatility | Unlisted

  /** The label a listed regime carries in a signal. */
  function Label(r: Regime): string {
    match r
    case TrendingBull => "trending_bull"
    case TrendingBear => "trending_bear"
    case Sideways => "sideways"
    case HighVolatility => "high_volatility"
    case LowVolatility => "low_volatility"
    case Unlisted => "unknown"
  }

  /** The regime a label names: a listed regime exactly when the label is its label. */
  function Classify(name: string): (r: Regime)
    ensures r != Unlisted ==> Label(r) == name
    ensures r == Unlisted ==> forall q: Regime :: q != Unlisted ==> Label(q) != name
  {
    if name == "trending_bull" then TrendingBull
    else if name == "trending_bear" then TrendingBear
    else if name == "sideways" then Sideways
    else if name == "high_volatility" then HighVolatility
    else if name == "low_volatility" then LowVolatility
    else Unlisted
  }

  /**
   * A signal: every field may be absent. `momentum` is left out because the
   * bot reads it without using it.
   */
  datatype Signal = Signal(
    score: Option<real>,
    volatility: Option<real>,
    trend: Option<real>,
    supportResistance: Option<real>,
    aiConfidence: Option<real>,
    regime: Option<string>,
    volumeRatio: Option<real>,
    spread: Option<real>,
    winProbability: Option<real>,
    avgWin: Option<real>,
    positionSize: Option<real>)
  {
    function Score(): real { score.GetOr(0.0) }
    function Volatility(): real { volatility.GetOr(0.0) }
    function Trend(): real { trend.GetOr(0.0) }
    function SupportResistance(): real { supportResistance.GetOr(0.0) }
    function Confidence(): real { aiConfidence.GetOr(0.5) }
    function RegimeName(): string { regime.GetOr("unknown") }
    function VolumeRatio(): real { volumeRatio.GetOr(1.0) }
    function Spread(): real { spread.GetOr(0.001) }
    function WinProbability(): real { winProbability.GetOr(0.65) }
    function AvgWin(): real { avgWin.GetOr(0.025) }
  }
}
