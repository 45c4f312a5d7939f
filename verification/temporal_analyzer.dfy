/** The temporal picture synthesised from the identifier
    (`temporalAnalysis`): a phase picked by a base draw, four independent
    sub-scores and three evidence sentences. */
module TemporalAnalyzer {
  import opened JsStrings
  import opened MarketService
  import opened SignalTypes

  const Phases: seq<string> := ["launch", "early_accumulation", "distribution"]

  /** Base draws above this report high early velocity. */
  const HighVelocityAbove: int := 70

  const PhasePrefix: string := "Token is currently in the "
  const PhaseSuffix: string := " phase."
  const HighVelocityText: string := "High velocity detected in early blocks."
  const SteadyText: string := "Steady accumulation patterns observed."
  const PersistenceText: string := "Cluster persistence suggests long-term coordination."

  /** `getDeterministicScore(address, 'temp_base', 0, 100)` */
  function TemporalBase(address: JsString): (s: int)
    ensures 0 <= s <= 100
  {
    Score(address, "temp_base", 0, 100)
  }

  /** `Token is currently in the ${currentPhase} phase.` */
  function PhaseText(phase: string): string {
    PhasePrefix + phase + PhaseSuffix
  }

  /** `temporalAnalysis(address)` */
  function Temporal(address: JsString): (t: TemporalAnalysis)
    ensures t.currentPhase == Phases[TemporalBase(address) % 3]
    ensures var s := t.temporalScores;
      && 0 <= s.launchMomentum <= 100 && 0 <= s.participationDispersion <= 100
      && 0 <= s.clusterPersistence <= 100 && 0 <= s.liquidityVelocity <= 100
    ensures |t.temporalEvidence| == 3
    ensures t.temporalEvidence[0] == PhaseText(t.currentPhase)
    ensures t.temporalEvidence[1] == HighVelocityText <==> TemporalBase(address) > HighVelocityAbove
    ensures t.temporalEvidence[1] == SteadyText <==> TemporalBase(address) <= HighVelocityAbove
    ensures t.temporalEvidence[2] == PersistenceText
  {
    var base := TemporalBase(address);
    var phase := Phases[base % |Phases|];
    TemporalAnalysis(
      phase,
      TemporalScores(
        Score(address, "launch_mom", 0, 100),
        Score(address, "part_disp", 0, 100),
        Score(address, "clu_pers", 0, 100),
        Score(address, "liq_vel", 0, 100)),
      [PhaseText(phase),
       if base > HighVelocityAbove then HighVelocityText else SteadyText,
       PersistenceText])
  }

  /** Reads the phase back out of the first evidence sentence. */
  function PhaseOfText(e: string): string
    requires |e| >= |PhasePrefix| + |PhaseSuffix|
  {
    e[|PhasePrefix|..|e| - |PhaseSuffix|]
  }

  /** The first evidence sentence names the phase recoverably. */
  lemma PhaseTextRoundTrip(phase: string)
    ensures var e := PhaseText(phase);
      |e| >= |PhasePrefix| + |PhaseSuffix| && PhaseOfText(e) == phase
  {
    var e := PhaseText(phase);
    assert e[|PhasePrefix|..|e| - |PhaseSuffix|] == phase;
  }

  /** The phase names are distinct, so the reported phase determines the
      base draw modulo 3. */
  lemma PhaseDeterminesResidue(a1: JsString, a2: JsString)
    requires Temporal(a1).currentPhase == Temporal(a2).currentPhase
    ensures TemporalBase(a1) % 3 == TemporalBase(a2) % 3
  {
    PhaseSlot(TemporalBase(a1) % 3, TemporalBase(a2) % 3);
  }

  lemma PhaseSlot(i: nat, j: nat)
    requires i < |Phases| && j < |Phases| && Phases[i] == Phases[j]
    ensures i == j
  {
    assert Phases[0][0] == 'l' && Phases[1][0] == 'e' && Phases[2][0] == 'd';
  }

  /** Distribution is reported exactly for the draws `2, 5, ..., 98`. */
  lemma DistributionDraws(address: JsString)
    ensures Temporal(address).currentPhase == "distribution" <==> TemporalBase(address) % 3 == 2
  {
    var r := TemporalBase(address) % 3;
    if Temporal(address).currentPhase == "distribution" {
      PhaseSlot(r, 2);
    }
  }
}
