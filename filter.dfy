/** The seven-predicate signal filter (`check_trade_conditions`). */
module SignalFilter {
  import opened Config
  import opened Signals
  import opened RealMath

  /** Least score of the regime table; an unlisted regime uses the fixed 0.6. */
  function MinScore(r: Regime): real {
    match r
    case TrendingBull => 0.55
    case TrendingBear => 0.65
    case Sideways => 0.75
    case HighVolatility => 0.8
    case LowVolatility => 0.5
    case Unlisted => 0.6
  }

  /** Least absolute trend of the regime table; an unlisted regime uses the fixed 0.35. */
  function MinTrend(r: Regime): real {
    match r
    case TrendingBull => 0.3
    case TrendingBear => 0.4
    case Sideways => 0.5
    case HighVolatility => 0.6
    case LowVolatility => 0.25
    case Unlisted => 0.35
  }

  /** The score a signal must exceed: the regime table's, or 0.6 without regime adaptation. */
  function ScoreThreshold(cfg: Config, regime: string): (t: real)
    ensures 0.5 <= t <= 0.8
    ensures !cfg.regimeAdaptation || Classify(regime) == Unlisted ==> t == 0.6
  {
    if cfg.regimeAdaptation then MinScore(Classify(regime)) else 0.6
  }

  /** The absolute trend a signal must exceed: the regime table's, or 0.35 without adaptation. */
  function TrendThreshold(cfg: Config, regime: string): (t: real)
    ensures 0.25 <= t <= 0.6
    ensures !cfg.regimeAdaptation || Classify(regime) == Unlisted ==> t == 0.35
  {
    if cfg.regimeAdaptation then MinTrend(Classify(regime)) else 0.35
  }

  /** The seven predicates, in the order the filter lists them. */
  function Conditions(cfg: Config, s: Signal): seq<bool> {
    [ s.Score() > ScoreThreshold(cfg, s.RegimeName()),
      0.015 < s.Volatility() < 0.12,
      Abs(s.Trend()) > TrendThreshold(cfg, s.RegimeName()),
      s.SupportResistance() > 0.5,
      s.Confidence() >= cfg.confidenceThreshold,
      s.VolumeRatio() > 0.8,
      s.Spread() < 0.005 ]
  }

  /** Python's `all` over a list of booleans. */
  function AllTrue(bs: seq<bool>): bool {
    |bs| == 0 || (bs[0] && AllTrue(bs[1..]))
  }

  lemma {:induction false} AllTrueIff(bs: seq<bool>)
    ensures AllTrue(bs) <==> forall i :: 0 <= i < |bs| ==> bs[i]
  {
    if |bs| > 0 {
      AllTrueIff(bs[1..]);
      assert forall i :: 1 <= i < |bs| ==> bs[i] == bs[1..][i - 1];
    }
  }

  /** Whether the filter lets the signal through. */
  predicate CheckTradeConditions(cfg: Config, s: Signal) {
    AllTrue(Conditions(cfg, s))
  }

  /** The filter accepts exactly when all seven predicates hold. */
  lemma AcceptsIff(cfg: Config, s: Signal)
    ensures CheckTradeConditions(cfg, s) <==>
      && s.Score() > ScoreThreshold(cfg, s.RegimeName())
      && 0.015 < s.Volatility() < 0.12
      && Abs(s.Trend()) > TrendThreshold(cfg, s.RegimeName())
      && s.SupportResistance() > 0.5
      && s.Confidence() >= cfg.confidenceThreshold
      && s.VolumeRatio() > 0.8
      && s.Spread() < 0.005
  {
    var cs := Conditions(cfg, s);
    AllTrueIff(cs);
    assert cs[0] && cs[1] && cs[2] && cs[3] && cs[4] && cs[5] && cs[6]
      <==> forall i :: 0 <= i < |cs| ==> cs[i];
  }

  /**
   * Without regime adaptation, or for a regime the table does not list, the
   * filter is the fixed-threshold one: score above 0.6 and |trend| above 0.35.
   */
  lemma FixedThresholdsWhenNotAdapted(cfg: Config, s: Signal)
    requires !cfg.regimeAdaptation || Classify(s.RegimeName()) == Unlisted
    ensures CheckTradeConditions(cfg, s) <==>
      && s.Score() > 0.6
      && 0.015 < s.Volatility() < 0.12
      && Abs(s.Trend()) > 0.35
      && s.SupportResistance() > 0.5
      && s.Confidence() >= cfg.confidenceThreshold
      && s.VolumeRatio() > 0.8
      && s.Spread() < 0.005
  {
    AcceptsIff(cfg, s);
  }

  /**
   * A signal without an AI confidence is rejected whenever the confidence
   * threshold is above the default confidence 0.5 (as the default 0.65 is).
   */
  lemma MissingConfidenceRejected(cfg: Config, s: Signal)
    requires s.aiConfidence.None? && cfg.confidenceThreshold > 0.5
    ensures !CheckTradeConditions(cfg, s)
  {
    AcceptsIff(cfg, s);
  }
}
