/** Coordinated-wallet clusters synthesised from the identifier
    (`clusterWallets`). The source runs three copies of one heuristic —
    shared funding, timing, behaviour — each drawing a wallet count, emitting
    a cluster only when the count clears a threshold. Here the three copies
    are one rule applied to three parameter sets. */
module WalletClusterer {
  import opened Wrappers
  import opened JsStrings
  import opened MarketService
  import opened SignalTypes

  /** The constants of one heuristic block. */
  datatype Rule = Rule(
    kind: ClusterType,
    walletPrefix: string,
    countSeed: string, countMin: int, countMax: int,
    threshold: int,
    coordSeed: string, coordMin: int, coordMax: int,
    evidence: seq<string>)
  {
    predicate Valid() {
      0 <= countMin <= countMax && countMin <= threshold < countMax && coordMin <= coordMax
    }
  }

  const FundingRule: Rule := Rule(Funding, "0x_fund_", "fund_count", 2, 8, 3, "fund_coord", 60, 95,
    ["Shared CEX deposit address", "Gas wallet funding chain"])
  const TimingRule: Rule := Rule(Timing, "0x_time_", "time_count", 3, 12, 4, "time_coord", 70, 99,
    ["Identical buy timestamps", "Same block execution"])
  const BehavioralRule: Rule := Rule(Behavioral, "0x_beh_", "beh_count", 2, 6, 2, "beh_coord", 50, 85,
    ["Circular token transfers", "Wash trading patterns"])

  /** The rules in the order the source runs them. */
  const Rules: seq<Rule> := [FundingRule, TimingRule, BehavioralRule]

  lemma RulesValid()
    ensures forall k :: 0 <= k < |Rules| ==> Rules[k].Valid()
  {
  }

  /** The count draw of a rule. */
  function RuleCount(rule: Rule, address: JsString): (n: int)
    requires rule.Valid()
    ensures rule.countMin <= n <= rule.countMax
  {
    Score(address, rule.countSeed, rule.countMin, rule.countMax)
  }

  /** Wallet `i` of a cluster: `${prefix}${i}_${address.slice(-4)}`. */
  function WalletName(rule: Rule, address: JsString, i: nat): JsString
    requires rule.Valid()
  {
    Units(rule.walletPrefix) + Units(NatToString(i)) + Units("_") + SliceFrom(address, -4)
  }

  /** One heuristic block: a cluster exactly when the count clears the
      threshold. */
  function Detect(rule: Rule, address: JsString): (r: Option<WalletCluster>)
    requires rule.Valid()
    ensures r.Some? <==> RuleCount(rule, address) > rule.threshold
    ensures r.Some? ==>
              && r.value.clusterType == rule.kind
              && |r.value.wallets| == RuleCount(rule, address)
              && rule.threshold < |r.value.wallets| <= rule.countMax
              && rule.coordMin <= r.value.coordinationScore <= rule.coordMax
              && r.value.evidence == rule.evidence
    ensures r.Some? ==> forall i :: 0 <= i < |r.value.wallets| ==> r.value.wallets[i] == WalletName(rule, address, i)
  {
    var count := RuleCount(rule, address);
    if count > rule.threshold then
      Some(WalletCluster(
        rule.kind,
        seq(count, i requires 0 <= i < count => WalletName(rule, address, i)),
        Score(address, rule.coordSeed, rule.coordMin, rule.coordMax),
        rule.evidence))
    else None
  }

  /** `if (...) clusters.push(...)` */
  function Pushed(r: Option<WalletCluster>): (s: seq<WalletCluster>)
    ensures |s| <= 1
    ensures r.Some? <==> |s| == 1
    ensures r.Some? ==> s[0] == r.value
  {
    if r.Some? then [r.value] else []
  }

  /** `clusterWallets(address)`: a cluster of each type is present exactly
      when that heuristic's count clears its threshold, every present
      cluster is the one its heuristic detected, and the list is empty
      exactly when no count clears its threshold. */
  function ClusterWallets(address: JsString): (cs: seq<WalletCluster>)
    ensures |cs| <= 3
    ensures (exists c :: c in cs && c.clusterType == Funding) <==> RuleCount(FundingRule, address) > 3
    ensures (exists c :: c in cs && c.clusterType == Timing) <==> RuleCount(TimingRule, address) > 4
    ensures (exists c :: c in cs && c.clusterType == Behavioral) <==> RuleCount(BehavioralRule, address) > 2
    ensures forall c :: c in cs ==>
      || (c.clusterType == Funding && Detect(FundingRule, address) == Some(c))
      || (c.clusterType == Timing && Detect(TimingRule, address) == Some(c))
      || (c.clusterType == Behavioral && Detect(BehavioralRule, address) == Some(c))
    ensures cs == [] <==>
      RuleCount(FundingRule, address) <= 3 && RuleCount(TimingRule, address) <= 4
      && RuleCount(BehavioralRule, address) <= 2
  {
    var f := Pushed(Detect(FundingRule, address));
    var t := Pushed(Detect(TimingRule, address));
    var b := Pushed(Detect(BehavioralRule, address));
    assert forall c :: c in f ==> c.clusterType == Funding && Detect(FundingRule, address) == Some(c);
    assert forall c :: c in t ==> c.clusterType == Timing && Detect(TimingRule, address) == Some(c);
    assert forall c :: c in b ==> c.clusterType == Behavioral && Detect(BehavioralRule, address) == Some(c);
    assert forall c :: c in f + t + b <==> c in f || c in t || c in b;
    f + t + b
  }

  /** Position of a cluster type in the output order. */
  function Rank(t: ClusterType): int {
    match t
    case Funding => 0
    case Timing => 1
    case Behavioral => 2
    case Insider => 3
  }

  /** The evidence attached to each emitted type. */
  function EvidenceFor(t: ClusterType): seq<string> {
    match t
    case Funding => FundingRule.evidence
    case Timing => TimingRule.evidence
    case Behavioral => BehavioralRule.evidence
    case Insider => []
  }

  /** Clusters come out in the fixed type order, so each type at most once,
      and no insider cluster is ever produced. */
  lemma ClustersOrderedByType(address: JsString)
    ensures var cs := ClusterWallets(address);
      (forall i, j :: 0 <= i < j < |cs| ==> Rank(cs[i].clusterType) < Rank(cs[j].clusterType))
      && (forall i :: 0 <= i < |cs| ==> cs[i].clusterType != Insider)
  {
    var f := Pushed(Detect(FundingRule, address));
    var t := Pushed(Detect(TimingRule, address));
    var b := Pushed(Detect(BehavioralRule, address));
    assert forall c :: c in f ==> c.clusterType == Funding;
    assert forall c :: c in t ==> c.clusterType == Timing;
    assert forall c :: c in b ==> c.clusterType == Behavioral;
    var cs := f + t + b;
    assert cs == ClusterWallets(address);
    assert forall k :: 0 <= k < |cs| ==>
      Rank(cs[k].clusterType) == (if k < |f| then 0 else if k < |f| + |t| then 1 else 2);
  }

  /** Every emitted cluster carries the two evidence strings of its type and
      a coordination score in `[50, 99]`. */
  lemma ClusterFieldsByType(address: JsString)
    ensures forall c :: c in ClusterWallets(address) ==>
      && |c.evidence| == 2 && c.evidence == EvidenceFor(c.clusterType)
      && 50 <= c.coordinationScore <= 99
  {
    RulesValid();
    var f := Pushed(Detect(FundingRule, address));
    var t := Pushed(Detect(TimingRule, address));
    var b := Pushed(Detect(BehavioralRule, address));
    assert ClusterWallets(address) == f + t + b;
  }

  /** The emission thresholds with their wallet-count ranges: funding
      `[4, 8]`, timing `[5, 12]`, behavioural `[3, 6]`. */
  lemma EmissionThresholds(address: JsString)
    ensures var r := Detect(FundingRule, address);
      (r.Some? <==> RuleCount(FundingRule, address) > 3) && (r.Some? ==> 4 <= |r.value.wallets| <= 8)
    ensures var r := Detect(TimingRule, address);
      (r.Some? <==> RuleCount(TimingRule, address) > 4) && (r.Some? ==> 5 <= |r.value.wallets| <= 12)
    ensures var r := Detect(BehavioralRule, address);
      (r.Some? <==> RuleCount(BehavioralRule, address) > 2) && (r.Some? ==> 3 <= |r.value.wallets| <= 6)
  {
    RulesValid();
  }
}
