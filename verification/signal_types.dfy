/** The records one analysis produces and persists. Optional fields of the
    TypeScript interfaces become `Option`; the closed string unions become
    enumerations. Text built from the analysed identifier is a `JsString`;
    fixed text (names, labels, evidence) is a plain `string`. */
module SignalTypes {
  import opened Wrappers
  import opened JsStrings

  datatype Chain = Ethereum | Base | Solana

  /** The wire name of a chain. */
  function ChainName(c: Chain): string {
    match c
    case Ethereum => "ethereum"
    case Base => "base"
    case Solana => "solana"
  }

  datatype LaunchpadType = PumpFun | Bonk | Standard

  datatype TokenMetadata = TokenMetadata(
    name: string,
    symbol: string,
    decimals: int,
    totalSupply: string,
    chain: Chain,
    creationBlock: Option<int>,
    creationSlot: Option<int>,
    deployer: JsString,
    launchpadType: Option<LaunchpadType>,
    bondingCurveProgress: Option<int>,
    isGraduated: Option<bool>)

  datatype Holder = Holder(
    address: JsString,
    balance: string,
    percentage: int,
    isContract: bool,
    isCreator: bool)

  datatype HolderAnalysis = HolderAnalysis(
    top10Percentage: int,
    giniCoefficient: real,
    singleWalletDominance: bool,
    creatorShare: int,
    holders: seq<Holder>)

  datatype LiquidityPool = LiquidityPool(
    platform: string,
    address: JsString,
    liquidityUSD: int,
    isLocked: bool,
    ownershipPercentage: int,
    proximityToDev: int)

  datatype LiquidityAnalysis = LiquidityAnalysis(
    primaryPools: seq<LiquidityPool>,
    totalLiquidityUSD: int,
    lpOwnershipRisk: int,
    removalRisk: int,
    depthScore: int)

  /** The `type` tag of a wallet cluster. */
  datatype ClusterType = Funding | Timing | Behavioral | Insider

  datatype WalletCluster = WalletCluster(
    clusterType: ClusterType,
    wallets: seq<JsString>,
    coordinationScore: int,
    evidence: seq<string>)

  datatype Severity = Low | Medium | High | Critical

  /** A signal's `value`: a label or a count. */
  datatype SignalValue = Text(text: string) | Count(count: int)

  datatype Signal = Signal(
    id: string,
    name: string,
    value: SignalValue,
    description: string,
    severity: Severity)

  /** A risk component. Scores are exact rationals: the insider score is a
      mean and need not be integral. */
  datatype RiskScore = RiskScore(
    score: real,
    labelText: string,
    evidence: seq<string>,
    confidence: real)

  datatype RiskAssessment = RiskAssessment(
    ownershipRisk: RiskScore,
    concentrationRisk: RiskScore,
    liquidityRisk: RiskScore,
    insiderCoordinationRisk: RiskScore,
    contractRisk: RiskScore,
    compositeRugLikelihood: RiskScore)

  datatype TemporalScores = TemporalScores(
    launchMomentum: int,
    participationDispersion: int,
    clusterPersistence: int,
    liquidityVelocity: int)

  datatype TemporalAnalysis = TemporalAnalysis(
    currentPhase: string,
    temporalScores: TemporalScores,
    temporalEvidence: seq<string>)

  /** The four verdict bands, mildest first. A band fixes the verdict's
      summary and explanation texts (`VerdictGenerator.Summary` and
      `VerdictGenerator.Explanation`), so the verdict records the band. */
  datatype VerdictBand = NoStrongSignals | MixedSignals | CoordinatedStructure | EngineeredToken

  datatype Verdict = Verdict(band: VerdictBand, confidence: real)

  datatype AnalysisResult = AnalysisResult(
    id: JsString,
    chain: Chain,
    identifier: JsString,
    metadata: TokenMetadata,
    holders: HolderAnalysis,
    liquidity: LiquidityAnalysis,
    clusters: seq<WalletCluster>,
    signals: seq<Signal>,
    risk: RiskAssessment,
    temporal: TemporalAnalysis,
    verdict: Verdict,
    timestamp: int)
}
