/** Position sizing (`calculate_position_size`): a Kelly base, multipliers, a final clamp. */
module PositionSizing {
  import opened Wrappers
  import opened RealMath
  import opened Config
  import opened Signals

  /**
   * The Kelly fraction `(p * w - (1 - p) * l) / w`, clamped to at most the
   * risk per trade and then to at least 1%; the lower bound wins.
   */
  function Kelly(winRate: real, avgWin: real, avgLoss: real, maxRisk: real): (k: real)
    requires avgWin != 0.0
    ensures k >= 0.01
    ensures maxRisk >= 0.01 ==> k <= maxRisk
    ensures maxRisk < 0.01 ==> k == 0.01
  {
    Max(0.01, Min((winRate * avgWin - (1.0 - winRate) * avgLoss) / avgWin, maxRisk))
  }

  /** Whether the size is the fraction the signal carries rather than the Kelly one. */
  predicate UsesSignalFraction(cfg: Config, s: Signal) {
    cfg.useAiSizing && s.positionSize.Some?
  }

  /** The size before any adjustment; the Kelly formula divides by `avg_win`. */
  function BaseSize(cfg: Config, capital: real, s: Signal): (r: Result<real>)
    ensures r.ZeroDivisionError? <==> !UsesSignalFraction(cfg, s) && s.AvgWin() == 0.0
  {
    if UsesSignalFraction(cfg, s) then Ok(s.positionSize.value * capital)
    else if s.AvgWin() == 0.0 then ZeroDivisionError
    else Ok(capital * Kelly(s.WinProbability(), s.AvgWin(), cfg.stopLoss, cfg.maxRiskPerTrade))
  }

  /** From 50% to 100% of the size as the AI confidence goes from 0 to 1. */
  function ConfidenceMultiplier(confidence: real): (m: real)
    ensures 0.0 <= confidence <= 1.0 ==> 0.5 <= m <= 1.0
  {
    0.5 + confidence * 0.5
  }

  /** Twice the drawdown comes off the size, down to a floor of one half. */
  function DrawdownMultiplier(drawdown: real): (m: real)
    ensures m >= 0.5
    ensures drawdown >= 0.0 ==> m <= 1.0
  {
    Max(0.5, 1.0 - drawdown * 2.0)
  }

  /** The relative distance below the peak comes off the size, down to a floor of 0.6. */
  function PeakMultiplier(capital: real, peakCapital: real): (m: real)
    ensures m >= 0.6
    ensures 0.0 <= capital <= peakCapital ==> m <= 1.0
  {
    var distance := if peakCapital > 0.0 then (peakCapital - capital) / peakCapital else 0.0;
    Max(0.6, 1.0 - distance)
  }

  /** The size is cut to 60% once the drawdown passes 3.5%. */
  function SizeReductionFactor(drawdown: real): real {
    if drawdown > SizeReductionDrawdown then 0.6 else 1.0
  }

  /** The adjusted size before the final clamp; the drawdown divides by the initial capital. */
  function UnclampedSize(cfg: Config, capital: real, initialCapital: real, peakCapital: real, s: Signal): Result<real> {
    match BaseSize(cfg, capital, s)
    case ZeroDivisionError => ZeroDivisionError
    case Ok(base) =>
      if initialCapital == 0.0 then ZeroDivisionError
      else
        var drawdown := (initialCapital - capital) / initialCapital;
        Ok(base * ConfidenceMultiplier(s.Confidence()) * DrawdownMultiplier(drawdown)
           * PeakMultiplier(capital, peakCapital) * SizeReductionFactor(drawdown))
  }

  /** The capital the bot puts into a trade on signal `s`. */
  function PositionSize(cfg: Config, capital: real, initialCapital: real, peakCapital: real, s: Signal): (r: Result<real>)
    ensures r.ZeroDivisionError? <==>
      initialCapital == 0.0 || (!UsesSignalFraction(cfg, s) && s.AvgWin() == 0.0)
    ensures r.Ok? ==> r.value >= 0.005 * capital
    ensures r.Ok? && capital >= 0.0 ==> r.value <= 0.04 * capital
    ensures r.Ok? ==> var u := UnclampedSize(cfg, capital, initialCapital, peakCapital, s).value;
      0.005 * capital <= u <= 0.04 * capital ==> r.value == u
  {
    match UnclampedSize(cfg, capital, initialCapital, peakCapital, s)
    case ZeroDivisionError => ZeroDivisionError
    case Ok(size) =>
      var capped := Min(size, capital * 0.04);
      Ok(Max(capped, capital * 0.005))
  }
}
