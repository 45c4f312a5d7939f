/** The four-band verdict on the composite rug likelihood
    (`generateVerdict`). */
module VerdictGenerator {
  import opened SignalTypes

  /** Lower bounds of the three upper bands; the mildest band is everything
      below 20. */
  const MixedFrom: real := 20.0
  const CoordinatedFrom: real := 50.0
  const EngineeredFrom: real := 80.0

  /** The `summary` text of a band. */
  function Summary(b: VerdictBand): string {
    match b
    case NoStrongSignals => "No strong manipulation signals"
    case MixedSignals => "Mixed signals"
    case CoordinatedStructure => "Coordinated structure detected"
    case EngineeredToken => "High probability engineered token"
  }

  /** The `explanation` text of a band. */
  function Explanation(b: VerdictBand): string {
    match b
    case NoStrongSignals =>
      "The token exhibits organic growth patterns with decentralized ownership and stable liquidity. Risk of engineered manipulation is low."
    case MixedSignals =>
      "While liquidity is stable, we detected some coordinated wallet clusters. Exercise caution as these entities may influence price action."
    case CoordinatedStructure =>
      "High probability of insider coordination. Multiple wallet clusters share funding sources and trade in sync. Structural weakness in liquidity detected."
    case EngineeredToken =>
      "Extremely high risk. The token structure is heavily centralized with clear evidence of bot-driven coordination and predatory liquidity settings."
  }

  /** Position of a band, mildest first. */
  function Rank(b: VerdictBand): nat {
    match b
    case NoStrongSignals => 0
    case MixedSignals => 1
    case CoordinatedStructure => 2
    case EngineeredToken => 3
  }

  /** The band the `if`/`else if` chain selects. */
  function Band(composite: real): (b: VerdictBand)
    ensures b == NoStrongSignals <==> composite < MixedFrom
    ensures b == MixedSignals <==> MixedFrom <= composite < CoordinatedFrom
    ensures b == CoordinatedStructure <==> CoordinatedFrom <= composite < EngineeredFrom
    ensures b == EngineeredToken <==> EngineeredFrom <= composite
  {
    if composite < MixedFrom then NoStrongSignals
    else if composite < CoordinatedFrom then MixedSignals
    else if composite < EngineeredFrom then CoordinatedStructure
    else EngineeredToken
  }

  /** Reference definition: the band's rank is the number of thresholds the
      composite has reached. */
  function ThresholdsReached(composite: real): nat {
    (if composite >= MixedFrom then 1 else 0)
    + (if composite >= CoordinatedFrom then 1 else 0)
    + (if composite >= EngineeredFrom then 1 else 0)
  }

  lemma BandIsThresholdCount(composite: real)
    ensures Rank(Band(composite)) == ThresholdsReached(composite)
  {
  }

  /** A larger composite never gives a milder band. */
  lemma BandMonotone(c1: real, c2: real)
    requires c1 <= c2
    ensures Rank(Band(c1)) <= Rank(Band(c2))
  {
  }

  /** `generateVerdict(risk)` */
  function GenerateVerdict(risk: RiskAssessment): (v: Verdict)
    ensures v.band == Band(risk.compositeRugLikelihood.score)
    ensures v.confidence == risk.compositeRugLikelihood.confidence
  {
    Verdict(Band(risk.compositeRugLikelihood.score), risk.compositeRugLikelihood.confidence)
  }

  /** The summary text of each band, in both directions. */
  lemma SummaryBands(risk: RiskAssessment)
    ensures var c := risk.compositeRugLikelihood.score;
      var summary := Summary(GenerateVerdict(risk).band);
      && (c < 20.0 <==> summary == "No strong manipulation signals")
      && (20.0 <= c < 50.0 <==> summary == "Mixed signals")
      && (50.0 <= c < 80.0 <==> summary == "Coordinated structure detected")
      && (80.0 <= c <==> summary == "High probability engineered token")
  {
    SummariesDistinct();
  }

  /** The four summaries are distinct, so the summary text identifies the
      band. */
  lemma SummariesDistinct()
    ensures forall b1: VerdictBand, b2: VerdictBand :: Summary(b1) == Summary(b2) ==> b1 == b2
  {
    assert Summary(NoStrongSignals)[0] == 'N' && Summary(MixedSignals)[0] == 'M';
    assert Summary(CoordinatedStructure)[0] == 'C' && Summary(EngineeredToken)[0] == 'H';
  }

  /** The summary alone determines the explanation. */
  lemma SummaryDeterminesExplanation(b1: VerdictBand, b2: VerdictBand)
    requires Summary(b1) == Summary(b2)
    ensures Explanation(b1) == Explanation(b2)
  {
    SummariesDistinct();
  }

  /** The boundaries: 19 and 20, 49 and 50, 79 and 80 fall on either side,
      and the composite's maximum of 108 is in the top band. */
  lemma BandBoundaries()
    ensures Band(19.0) == NoStrongSignals && Band(20.0) == MixedSignals
    ensures Band(49.0) == MixedSignals && Band(50.0) == CoordinatedStructure
    ensures Band(79.0) == CoordinatedStructure && Band(80.0) == EngineeredToken
    ensures Band(108.0) == EngineeredToken
  {
  }
}
