/** Risk signals and scores (`scoreRisk`): three threshold-driven signals,
    five component scores and a weighted composite over four of them.
    Scores are exact rationals; the composite is rounded half-up. The
    confidences, drawn at random in the source, are a parameter. */
module RiskScorer {
  import opened Wrappers
  import opened JsStrings
  import opened MarketService
  import opened SignalTypes
  import WalletClusterer

  /** The six `0.85 + Math.random() * 0.1` draws, one per component, in the
      order the components are built. */
  datatype Confidences = Confidences(
    ownership: real, concentration: real, liquidity: real,
    insider: real, contract: real, composite: real)

  /** The composite's weights. */
  const OwnershipWeight: real := 0.2
  const ConcentrationWeight: real := 0.2
  const LiquidityWeight: real := 0.3
  const InsiderWeight: real := 0.3

  /** `LIQ-01` reads `Stable` below this LP-ownership risk. */
  const StableBelow: int := 30
  /** `LIQ-01` is of high severity above this LP-ownership risk. */
  const VolatileSeverityAbove: int := 50
  /** `CLU-01` is critical above this many clusters. */
  const CriticalClustersAbove: int := 2

  const OwnershipEvidence: seq<string> := ["Contract not renounced", "Admin functions active"]
  const LiquidityEvidence: seq<string> := ["Low liquidity depth", "LP tokens not burnt"]
  const InsiderEvidence: seq<string> := ["Coordinated buy patterns", "Shared funding sources"]
  const ContractEvidence: seq<string> := ["Standard SPL/ERC20 implementation", "No malicious functions detected"]
  const DominanceEvidence: string := "Single wallet dominance detected"

  const OwnershipLabel: string := "Ownership Risk"
  const ConcentrationLabel: string := "Concentration Risk"
  const LiquidityLabel: string := "Liquidity Risk"
  const InsiderLabel: string := "Insider Coordination Risk"
  const ContractLabel: string := "Contract Risk"
  const CompositeLabel: string := "Composite Rug Likelihood"

  const ConcentrationPrefix: string := "Top 10 holders control "
  const ConcentrationSuffix: string := ".0%"
  const ClusterCountPrefix: string := "Detected "
  const ClusterCountSuffix: string := " distinct coordinated wallet clusters."

  // ---------------------------------------------------------------------
  // Signals
  // ---------------------------------------------------------------------

  /** `OWN-01`: renounced exactly when the token is flagged as graduated. */
  function OwnershipSignal(metadata: TokenMetadata): (s: Signal)
    ensures s.id == "OWN-01" && s.name == "Ownership Privileges"
    ensures s.description == "The contract owner has the ability to modify parameters."
    ensures s.value == Text("Renounced") <==> metadata.isGraduated == Some(true)
    ensures s.value == Text("Active") <==> metadata.isGraduated != Some(true)
    ensures s.severity == Low <==> metadata.isGraduated == Some(true)
    ensures s.severity == High <==> metadata.isGraduated != Some(true)
  {
    var graduated := metadata.isGraduated == Some(true);
    Signal(
      "OWN-01",
      "Ownership Privileges",
      if graduated then Text("Renounced") else Text("Active"),
      "The contract owner has the ability to modify parameters.",
      if graduated then Low else High)
  }

  /** `Detected ${clusters.length} distinct coordinated wallet clusters.` */
  function ClusterCountText(n: nat): string {
    ClusterCountPrefix + NatToString(n) + ClusterCountSuffix
  }

  /** `CLU-01`: the number of clusters, critical above two. */
  function ClusterSignal(clusters: seq<WalletCluster>): (s: Signal)
    ensures s.id == "CLU-01" && s.name == "Insider Cluster Size"
    ensures s.value == Count(|clusters|)
    ensures s.description == ClusterCountText(|clusters|)
    ensures s.severity == Critical <==> |clusters| > CriticalClustersAbove
    ensures s.severity == Medium <==> |clusters| <= CriticalClustersAbove
  {
    Signal(
      "CLU-01",
      "Insider Cluster Size",
      Count(|clusters|),
      ClusterCountText(|clusters|),
      if |clusters| > CriticalClustersAbove then Critical else Medium)
  }

  /** `LIQ-01`: stable below 30, high severity above 50; the band 30..50 is
      volatile but of low severity. */
  function LiquiditySignal(liquidity: LiquidityAnalysis): (s: Signal)
    ensures s.id == "LIQ-01" && s.name == "Liquidity Stability"
    ensures s.description == "Assessment of how easily liquidity can be removed."
    ensures s.value == Text("Stable") <==> liquidity.lpOwnershipRisk < StableBelow
    ensures s.value == Text("Volatile") <==> liquidity.lpOwnershipRisk >= StableBelow
    ensures s.severity == High <==> liquidity.lpOwnershipRisk > VolatileSeverityAbove
    ensures s.severity == Low <==> liquidity.lpOwnershipRisk <= VolatileSeverityAbove
  {
    Signal(
      "LIQ-01",
      "Liquidity Stability",
      if liquidity.lpOwnershipRisk < StableBelow then Text("Stable") else Text("Volatile"),
      "Assessment of how easily liquidity can be removed.",
      if liquidity.lpOwnershipRisk > VolatileSeverityAbove then High else Low)
  }

  // ---------------------------------------------------------------------
  // Component scores
  // ---------------------------------------------------------------------

  /** `clusters.reduce((acc, c) => acc + c.coordinationScore, 0)` */
  function SumCoordination(clusters: seq<WalletCluster>): int {
    if |clusters| == 0 then 0
    else SumCoordination(clusters[..|clusters| - 1]) + clusters[|clusters| - 1].coordinationScore
  }

  /** The sum divided by `clusters.length || 1`. */
  function InsiderScore(clusters: seq<WalletCluster>): (r: real)
    ensures |clusters| == 0 ==> r == 0.0
    ensures r * (if |clusters| == 0 then 1 else |clusters|) as real == SumCoordination(clusters) as real
  {
    SumCoordination(clusters) as real / (if |clusters| == 0 then 1 else |clusters|) as real
  }

  /** Coordination scores in `[lo, hi]` bound their sum by `n*lo` and
      `n*hi`. */
  lemma {:induction false} SumCoordinationBounds(clusters: seq<WalletCluster>, lo: int, hi: int)
    requires forall i :: 0 <= i < |clusters| ==> lo <= clusters[i].coordinationScore <= hi
    ensures |clusters| * lo <= SumCoordination(clusters) <= |clusters| * hi
  {
    if |clusters| > 0 {
      var init := clusters[..|clusters| - 1];
      assert forall i :: 0 <= i < |init| ==> init[i] == clusters[i];
      SumCoordinationBounds(init, lo, hi);
      assert |clusters| * lo == |init| * lo + lo && |clusters| * hi == |init| * hi + hi;
    }
  }

  /** The mean lies between the smallest and the largest possible
      coordination score. */
  lemma InsiderScoreIsMean(clusters: seq<WalletCluster>, lo: int, hi: int)
    requires |clusters| > 0
    requires forall i :: 0 <= i < |clusters| ==> lo <= clusters[i].coordinationScore <= hi
    ensures lo as real <= InsiderScore(clusters) <= hi as real
  {
    SumCoordinationBounds(clusters, lo, hi);
    var n := |clusters|;
    var sum := SumCoordination(clusters);
    assert (n * lo) as real == n as real * lo as real;
    assert (n * hi) as real == n as real * hi as real;
    MeanBounds(sum as real, n as real, lo as real, hi as real);
  }

  /** An identifier whose three heuristic counts all stay at or below their
      thresholds gets no clusters and an insider score of 0. */
  lemma QuietIdentifierHasNoInsiderRisk(address: JsString)
    requires WalletClusterer.RuleCount(WalletClusterer.FundingRule, address) <= 3
    requires WalletClusterer.RuleCount(WalletClusterer.TimingRule, address) <= 4
    requires WalletClusterer.RuleCount(WalletClusterer.BehavioralRule, address) <= 2
    ensures WalletClusterer.ClusterWallets(address) == []
    ensures InsiderScore(WalletClusterer.ClusterWallets(address)) == 0.0
  {
  }

  lemma MeanBounds(sum: real, n: real, lo: real, hi: real)
    requires n > 0.0 && n * lo <= sum <= n * hi
    ensures lo <= sum / n <= hi
  {
    var m := sum / n;
    assert (m - lo) * n == sum - n * lo && (hi - m) * n == n * hi - sum;
  }

  /** `getDeterministicScore(deployer, 'own_risk', 10, 90)` */
  function OwnershipScore(deployer: JsString): (s: int)
    ensures 10 <= s <= 90
  {
    Score(deployer, "own_risk", 10, 90)
  }

  /** `getDeterministicScore(deployer, 'cont_risk', 5, 40)` */
  function ContractScore(deployer: JsString): (s: int)
    ensures 5 <= s <= 40
  {
    Score(deployer, "cont_risk", 5, 40)
  }

  /** `Top 10 holders control ${top10Percentage.toFixed(1)}%`; the share is
      integral, so `toFixed(1)` appends `.0`. */
  function ConcentrationText(top10: int): string {
    ConcentrationPrefix + IntToString(top10) + ConcentrationSuffix
  }

  /** The concentration evidence carries the share, which can be read back
      from it. */
  lemma ConcentrationTextEncodes(top10: nat)
    ensures var e := ConcentrationText(top10);
      e[..|ConcentrationPrefix|] == ConcentrationPrefix
      && IsDigits(e[|ConcentrationPrefix|..|e| - |ConcentrationSuffix|])
      && DigitsValue(e[|ConcentrationPrefix|..|e| - |ConcentrationSuffix|]) == top10
  {
    EmbeddedNumber(ConcentrationPrefix, top10, ConcentrationSuffix);
  }

  /** The cluster-count description likewise carries the count. */
  lemma ClusterCountTextEncodes(n: nat)
    ensures var e := ClusterCountText(n);
      IsDigits(e[|ClusterCountPrefix|..|e| - |ClusterCountSuffix|])
      && DigitsValue(e[|ClusterCountPrefix|..|e| - |ClusterCountSuffix|]) == n
  {
    EmbeddedNumber(ClusterCountPrefix, n, ClusterCountSuffix);
  }

  // ---------------------------------------------------------------------
  // Composite
  // ---------------------------------------------------------------------

  /** `Math.round` on an exact rational: the nearest integer, ties upwards. */
  function Round(x: real): (n: int)
    ensures n as real - 0.5 <= x < n as real + 0.5
  {
    (x + 0.5).Floor
  }

  /** Only one integer is within half a unit of `x` in the `Round` sense. */
  lemma RoundUnique(x: real, n: int)
    requires n as real - 0.5 <= x < n as real + 0.5
    ensures Round(x) == n
  {
    var m := Round(x);
    assert m as real - n as real < 1.0 && n as real - m as real < 1.0;
  }

  /** Rounding never moves a value down past a smaller one. */
  lemma RoundMonotone(x: real, y: real)
    requires x <= y
    ensures Round(x) <= Round(y)
  {
  }

  /** The unrounded weighted sum of the four components that count. */
  function WeightedSum(risk: RiskAssessment): real {
    OwnershipWeight * risk.ownershipRisk.score + ConcentrationWeight * risk.concentrationRisk.score
    + LiquidityWeight * risk.liquidityRisk.score + InsiderWeight * risk.insiderCoordinationRisk.score
  }

  /** `createScore(base, label, evidence)` with the confidence draw given. */
  function CreateScore(base: real, labelText: string, evidence: seq<string>, confidence: real): RiskScore {
    RiskScore(base, labelText, evidence, confidence)
  }

  datatype Scored = Scored(risk: RiskAssessment, signals: seq<Signal>)

  /** `scoreRisk(metadata, holders, liquidity, clusters)` */
  function ScoreRisk(
    metadata: TokenMetadata, holders: HolderAnalysis, liquidity: LiquidityAnalysis,
    clusters: seq<WalletCluster>, confidences: Confidences): (out: Scored)
    ensures out.signals == [OwnershipSignal(metadata), ClusterSignal(clusters), LiquiditySignal(liquidity)]
    ensures var r := out.risk;
      && r.ownershipRisk.score == OwnershipScore(metadata.deployer) as real
      && 10.0 <= r.ownershipRisk.score <= 90.0
      && r.concentrationRisk.score == holders.top10Percentage as real
      && r.liquidityRisk.score == liquidity.lpOwnershipRisk as real
      && r.insiderCoordinationRisk.score == InsiderScore(clusters)
      && r.contractRisk.score == ContractScore(metadata.deployer) as real
      && 5.0 <= r.contractRisk.score <= 40.0
    ensures var c := out.risk.compositeRugLikelihood.score;
      c == Round(WeightedSum(out.risk)) as real
      && c - 0.5 <= WeightedSum(out.risk) < c + 0.5
    ensures out.risk.ownershipRisk.evidence == OwnershipEvidence
    ensures out.risk.contractRisk.evidence == ContractEvidence
    ensures out.risk.liquidityRisk.evidence == LiquidityEvidence
    ensures out.risk.insiderCoordinationRisk.evidence == InsiderEvidence
    ensures out.risk.compositeRugLikelihood.evidence == [LiquidityEvidence[0], InsiderEvidence[0]]
    ensures out.risk.concentrationRisk.evidence == [ConcentrationText(holders.top10Percentage), DominanceEvidence]
    ensures var r := out.risk;
      && r.ownershipRisk.labelText == OwnershipLabel && r.concentrationRisk.labelText == ConcentrationLabel
      && r.liquidityRisk.labelText == LiquidityLabel && r.insiderCoordinationRisk.labelText == InsiderLabel
      && r.contractRisk.labelText == ContractLabel && r.compositeRugLikelihood.labelText == CompositeLabel
    ensures var r := out.risk;
      && r.ownershipRisk.confidence == confidences.ownership
      && r.concentrationRisk.confidence == confidences.concentration
      && r.liquidityRisk.confidence == confidences.liquidity
      && r.insiderCoordinationRisk.confidence == confidences.insider
      && r.contractRisk.confidence == confidences.contract
      && r.compositeRugLikelihood.confidence == confidences.composite
  {
    var address := metadata.deployer;
    var signals := [OwnershipSignal(metadata), ClusterSignal(clusters), LiquiditySignal(liquidity)];
    var ownership := CreateScore(OwnershipScore(address) as real, OwnershipLabel, OwnershipEvidence,
      confidences.ownership);
    var concentration := CreateScore(holders.top10Percentage as real, ConcentrationLabel,
      [ConcentrationText(holders.top10Percentage), DominanceEvidence], confidences.concentration);
    var liquidityRisk := CreateScore(liquidity.lpOwnershipRisk as real, LiquidityLabel, LiquidityEvidence,
      confidences.liquidity);
    var insider := CreateScore(InsiderScore(clusters), InsiderLabel, InsiderEvidence,
      confidences.insider);
    var contract := CreateScore(ContractScore(address) as real, ContractLabel, ContractEvidence,
      confidences.contract);
    var placeholder := CreateScore(0.0, CompositeLabel, [], confidences.composite);
    var risk := RiskAssessment(ownership, concentration, liquidityRisk, insider, contract, placeholder);
    FirstOfEach(liquidityRisk.evidence, insider.evidence);
    var composite := placeholder.(
      score := Round(WeightedSum(risk)) as real,
      evidence := liquidityRisk.evidence[..1] + insider.evidence[..1]);
    Scored(risk.(compositeRugLikelihood := composite), signals)
  }

  /** `[...a.slice(0, 1), ...b.slice(0, 1)]` on non-empty lists. */
  lemma FirstOfEach(a: seq<string>, b: seq<string>)
    requires |a| > 0 && |b| > 0
    ensures a[..1] + b[..1] == [a[0], b[0]]
  {
  }

  /** The composite's integer value. */
  function CompositeOf(out: Scored): int {
    Round(WeightedSum(out.risk))
  }

  /** The contract score never enters the composite: replacing it leaves the
      composite unchanged. */
  lemma ContractRiskIgnored(risk: RiskAssessment, other: RiskScore)
    ensures WeightedSum(risk.(contractRisk := other)) == WeightedSum(risk)
    ensures WeightedSum(risk.(compositeRugLikelihood := other)) == WeightedSum(risk)
  {
  }

  /** The composite is non-decreasing in each counted component. */
  lemma CompositeMonotone(a: RiskAssessment, b: RiskAssessment)
    requires a.ownershipRisk.score <= b.ownershipRisk.score
    requires a.concentrationRisk.score <= b.concentrationRisk.score
    requires a.liquidityRisk.score <= b.liquidityRisk.score
    requires a.insiderCoordinationRisk.score <= b.insiderCoordinationRisk.score
    ensures Round(WeightedSum(a)) <= Round(WeightedSum(b))
  {
    RoundMonotone(WeightedSum(a), WeightedSum(b));
  }

  /** The ranges the pipeline's stages guarantee for the scorer's inputs. */
  predicate PipelineRanges(holders: HolderAnalysis, liquidity: LiquidityAnalysis, clusters: seq<WalletCluster>) {
    && 10 <= holders.top10Percentage <= 150
    && 0 <= liquidity.lpOwnershipRisk <= 100
    && forall i :: 0 <= i < |clusters| ==> 50 <= clusters[i].coordinationScore <= 99
  }

  /** With inputs in the stages' ranges, the composite lies in `[4, 108]`:
      the concentration share can reach 150, so the composite is not
      confined to the documented 0..100. */
  lemma CompositeRange(
    metadata: TokenMetadata, holders: HolderAnalysis, liquidity: LiquidityAnalysis,
    clusters: seq<WalletCluster>, confidences: Confidences)
    requires PipelineRanges(holders, liquidity, clusters)
    ensures 4 <= CompositeOf(ScoreRisk(metadata, holders, liquidity, clusters, confidences)) <= 108
  {
    var out := ScoreRisk(metadata, holders, liquidity, clusters, confidences);
    var ins := out.risk.insiderCoordinationRisk.score;
    if |clusters| > 0 {
      InsiderScoreIsMean(clusters, 50, 99);
    }
    assert 0.0 <= ins <= 99.0;
    var x := WeightedSum(out.risk);
    assert 4.0 <= x <= 107.7;
    RoundMonotone(4.0, x);
    RoundMonotone(x, 107.7);
    RoundUnique(4.0, 4);
    RoundUnique(107.7, 108);
  }

  /** The top of the range is reached: the highest component scores give a
      composite of 108. */
  lemma CompositeCanExceedHundred()
    ensures Round(0.2 * 90.0 + 0.2 * 150.0 + 0.3 * 100.0 + 0.3 * 99.0) == 108
  {
    RoundUnique(107.7, 108);
  }

  /** A worked instance: scores 50, 30, 40 and 60 give 46. */
  lemma CompositeExample()
    ensures Round(0.2 * 50.0 + 0.2 * 30.0 + 0.3 * 40.0 + 0.3 * 60.0) == 46
  {
    RoundUnique(46.0, 46);
  }

  /** Exact halves round upwards. */
  lemma HalfRoundsUp(n: int)
    ensures Round(n as real + 0.5) == n + 1
  {
    RoundUnique(n as real + 0.5, n + 1);
  }
}
