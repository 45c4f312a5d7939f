/** The analysis job lifecycle of `server.ts`: `/api/analyze/init` inserts a
    pending row and dispatches a background run; the run executes the
    stages in order and makes one terminal write; the summary and
    sub-resource routes read the row back. The `analyses` table is a map
    from id to row; the dispatched-but-not-yet-run analyses are a second
    map, so the background run is an explicit step. */
module AnalysisServer {
  import opened Wrappers
  import opened JsStrings
  import opened SignalTypes
  import opened ChainDetector
  import opened MetadataFetcher
  import opened HolderAnalyzer
  import opened LiquidityAnalyzer
  import opened WalletClusterer
  import opened RiskScorer
  import opened TemporalAnalyzer
  import opened VerdictGenerator

  datatype Status = Pending | Completed | Failed

  /** A row of the `analyses` table; `results` is `results_json`. */
  datatype Row = Row(
    userId: Option<JsString>,
    chain: Chain,
    identifier: JsString,
    status: Status,
    results: Option<AnalysisResult>)

  /** What a run does not compute itself: whether it throws, the clock, and
      the six confidence draws. */
  datatype RunEnv = RunEnv(fails: bool, timestamp: int, confidences: Confidences)

  /** `rows` is the table; `jobs` maps each dispatched analysis to the raw
      input its run will use. */
  datatype Store = Store(rows: map<JsString, Row>, jobs: map<JsString, JsString>)
  {
    /** Every pending row has exactly one outstanding run and every
        outstanding run belongs to a pending row; a row holds results
        exactly when it is completed. */
    predicate Valid() {
      && (forall id :: id in jobs ==> id in rows && rows[id].status == Pending)
      && (forall id :: id in rows && rows[id].status == Pending ==> id in jobs)
      && (forall id :: id in rows ==> (rows[id].results.Some? <==> rows[id].status == Completed))
    }

    /** Each outstanding run will see the input its row was classified
        from. */
    predicate Classified() {
      forall id :: id in jobs && id in rows ==>
        rows[id].chain == DetectChain(jobs[id]) && rows[id].identifier == NormalizeIdentifier(jobs[id])
    }

    /** Stored results belong to their row: same id, chain and identifier. */
    predicate ResultsBelong() {
      forall id :: id in rows && rows[id].results.Some? ==>
        && rows[id].results.value.id == id
        && rows[id].results.value.chain == rows[id].chain
        && rows[id].results.value.identifier == rows[id].identifier
    }
  }

  const EmptyStore: Store := Store(map[], map[])

  lemma EmptyStoreValid()
    ensures EmptyStore.Valid() && EmptyStore.Classified() && EmptyStore.ResultsBelong()
  {
  }

  // ---------------------------------------------------------------------
  // runFullAnalysis
  // ---------------------------------------------------------------------

  /** The stages of `runFullAnalysis` in order: classification on the raw
      input, then every stage on the normalised identifier, the verdict on
      the risk the scorer produced. */
  function RunPipeline(id: JsString, input: JsString, timestamp: int, confidences: Confidences): (r: AnalysisResult)
    ensures r.id == id && r.chain == DetectChain(input) && r.identifier == NormalizeIdentifier(input)
    ensures r.metadata == FetchMetadata(r.chain, r.identifier)
    ensures r.holders == FetchHolders(r.chain, r.identifier)
    ensures r.liquidity == FetchLiquidity(r.chain, r.identifier)
    ensures r.clusters == ClusterWallets(r.identifier)
    ensures Scored(r.risk, r.signals) == ScoreRisk(r.metadata, r.holders, r.liquidity, r.clusters, confidences)
    ensures r.temporal == Temporal(r.identifier)
    ensures r.verdict == GenerateVerdict(r.risk)
    ensures r.timestamp == timestamp
  {
    var chain := DetectChain(input);
    var identifier := NormalizeIdentifier(input);
    var metadata := FetchMetadata(chain, identifier);
    var holders := FetchHolders(chain, identifier);
    var liquidity := FetchLiquidity(chain, identifier);
    var clusters := ClusterWallets(identifier);
    var scored := ScoreRisk(metadata, holders, liquidity, clusters, confidences);
    var temporal := Temporal(identifier);
    var verdict := GenerateVerdict(scored.risk);
    AnalysisResult(id, chain, identifier, metadata, holders, liquidity, clusters,
      scored.signals, scored.risk, temporal, verdict, timestamp)
  }

  /** Chain detection sees the raw input while the stages see the
      normalised identifier: an input wrapped in a URL is treated as an
      Ethereum token even when the identifier inside is a Solana address. */
  lemma UrlWrappedInputIsEthereum(id: JsString, input: JsString, timestamp: int, confidences: Confidences)
    requires Slash in input
    ensures var r := RunPipeline(id, input, timestamp, confidences);
      && r.chain == Ethereum && r.metadata.decimals == 18 && r.metadata.launchpadType.None?
      && Slash !in r.identifier
  {
    var k :| 0 <= k < |input| && input[k] == Slash;
    DecoratedInputIsEthereum(input, k);
  }

  /** The stored verdict agrees with the stored risk: its band is that of the
      composite and its confidence is the composite's. */
  lemma VerdictMatchesRisk(id: JsString, input: JsString, timestamp: int, confidences: Confidences)
    ensures var r := RunPipeline(id, input, timestamp, confidences);
      && r.verdict.band == Band(r.risk.compositeRugLikelihood.score)
      && r.verdict.confidence == confidences.composite
      && r.risk.compositeRugLikelihood.score == Round(WeightedSum(r.risk)) as real
  {
  }

  /** The terminal write for the run of `id`: `COMPLETED` with the result,
      or, for `None`, `FAILED` with `results_json` untouched. The job is
      consumed; a write for an id with no outstanding job does nothing. */
  function Settle(store: Store, id: JsString, outcome: Option<AnalysisResult>): (s: Store)
    ensures id !in store.jobs ==> s == store
    ensures id in store.jobs ==> s.jobs == store.jobs - {id}
    ensures s.rows.Keys == store.rows.Keys
    ensures forall other :: other in store.rows && other != id ==> s.rows[other] == store.rows[other]
    ensures id in store.jobs && id in store.rows ==>
      var before := store.rows[id];
      var after := s.rows[id];
      && after.userId == before.userId && after.chain == before.chain && after.identifier == before.identifier
      && (outcome.None? ==> after.status == Failed && after.results == before.results)
      && (outcome.Some? ==> after.status == Completed && after.results == outcome)
    ensures store.Valid() ==> s.Valid()
  {
    if id !in store.jobs then store
    else
      var jobs := store.jobs - {id};
      if id !in store.rows then Store(store.rows, jobs)
      else
        var row := store.rows[id];
        var written :=
          if outcome.None? then row.(status := Failed)
          else row.(status := Completed, results := outcome);
        Store(store.rows[id := written], jobs)
  }

  /** `runFullAnalysis(id, input)`: the pipeline on the job's input, then
      one terminal write; when the run throws, the failure write alone. */
  function RunFullAnalysis(store: Store, id: JsString, env: RunEnv): (s: Store)
    ensures id !in store.jobs ==> s == store
    ensures id in store.jobs ==>
      s == Settle(store, id, if env.fails then None
                             else Some(RunPipeline(id, store.jobs[id], env.timestamp, env.confidences)))
  {
    if id !in store.jobs then store
    else
      var outcome := if env.fails then None
                     else Some(RunPipeline(id, store.jobs[id], env.timestamp, env.confidences));
      Settle(store, id, outcome)
  }

  /** A run keeps every invariant, and the results it stores belong to the
      row they are stored in. */
  lemma RunFullAnalysisPreservesInvariants(store: Store, id: JsString, env: RunEnv)
    requires store.Valid() && store.Classified() && store.ResultsBelong()
    ensures var s := RunFullAnalysis(store, id, env);
      s.Valid() && s.Classified() && s.ResultsBelong()
  {
    if id in store.jobs && !env.fails {
      var r := RunPipeline(id, store.jobs[id], env.timestamp, env.confidences);
      assert r.id == id && r.chain == store.rows[id].chain && r.identifier == store.rows[id].identifier;
      SettleKeepsBelonging(store, id, Some(r));
    } else if id in store.jobs {
      SettleKeepsBelonging(store, id, None);
    }
  }

  lemma SettleKeepsBelonging(store: Store, id: JsString, outcome: Option<AnalysisResult>)
    requires store.Valid() && store.Classified() && store.ResultsBelong()
    requires id in store.jobs
    requires outcome.Some? ==> && outcome.value.id == id
                               && outcome.value.chain == store.rows[id].chain
                               && outcome.value.identifier == store.rows[id].identifier
    ensures var s := Settle(store, id, outcome);
      s.Valid() && s.Classified() && s.ResultsBelong()
  {
  }

  // ---------------------------------------------------------------------
  // POST /api/analyze/init
  // ---------------------------------------------------------------------

  /** `userId || null`: an absent or empty user id is stored as null. */
  function StoredUserId(userId: Option<JsString>): (u: Option<JsString>)
    ensures u.None? <==> userId.None? || userId.value == []
    ensures u.Some? ==> u == userId
  {
    if userId.Some? && userId.value != [] then userId else None
  }

  datatype InitReply = InitReply(analysisId: JsString, detectedChain: Chain, status: Status)

  /** The request is rejected before the insert when its `input` cannot be
      normalised (it is missing or not a string, so `input.trim` throws);
      otherwise the insert either succeeds, giving the new store and the
      reply, or hits the primary key. */
  datatype InitOutcome = Accepted(store: Store, reply: InitReply) | InvalidInput | DuplicateId

  /** `/api/analyze/init` with the fresh id given: insert a pending row and
      dispatch the run. `input` is the body's `input` field, `None` when it
      is missing or not a string. */
  function Init(store: Store, id: JsString, input: Option<JsString>, userId: Option<JsString>): (r: InitOutcome)
    ensures r.InvalidInput? <==> input.None?
    ensures r.DuplicateId? <==> input.Some? && id in store.rows
    ensures r.Accepted? ==>
      && input.Some?
      && r.reply == InitReply(id, DetectChain(input.value), Pending)
      && r.store.rows.Keys == store.rows.Keys + {id}
      && (forall other :: other in store.rows ==> r.store.rows[other] == store.rows[other])
      && r.store.rows[id].status == Pending && r.store.rows[id].results.None?
      && r.store.rows[id].chain == DetectChain(input.value)
      && r.store.rows[id].identifier == NormalizeIdentifier(input.value)
      && r.store.rows[id].userId == StoredUserId(userId)
      && r.store.jobs == store.jobs[id := input.value]
    ensures r.Accepted? && store.Valid() ==> r.store.Valid()
    ensures r.Accepted? && store.ResultsBelong() ==> r.store.ResultsBelong()
  {
    match input
    case None => InvalidInput
    case Some(text) =>
      if id in store.rows then DuplicateId
      else
        var chain := DetectChain(text);
        var row := Row(StoredUserId(userId), chain, NormalizeIdentifier(text), Pending, None);
        Accepted(Store(store.rows[id := row], store.jobs[id := text]), InitReply(id, chain, Pending))
  }

  /** The new job will see the input its row was classified from. */
  lemma InitKeepsClassified(store: Store, id: JsString, input: Option<JsString>, userId: Option<JsString>)
    requires store.Classified()
    ensures var r := Init(store, id, input, userId);
      r.Accepted? ==> r.store.Classified()
  {
  }

  // ---------------------------------------------------------------------
  // GET /api/analysis/:id/summary and the sub-resource routes
  // ---------------------------------------------------------------------

  /** The summary route's answers. `ServerError` is what parsing a null
      `results_json` and reading `.verdict` from it amounts to. */
  datatype SummaryReply =
    | NotFound
    | StillPending
    | ServerError
    | Summary(verdict: Verdict, risk: RiskScore, chain: Chain, timestamp: int)

  function GetSummary(store: Store, id: JsString): (r: SummaryReply)
    ensures r.NotFound? <==> id !in store.rows
    ensures r.StillPending? <==> id in store.rows && store.rows[id].status == Pending
    ensures r.ServerError? <==> id in store.rows && store.rows[id].status != Pending && store.rows[id].results.None?
    ensures r.Summary? ==>
      && id in store.rows && store.rows[id].status != Pending && store.rows[id].results.Some?
      && var res := store.rows[id].results.value;
      && r.verdict == res.verdict && r.risk == res.risk.compositeRugLikelihood
      && r.chain == res.chain && r.timestamp == res.timestamp
  {
    if id !in store.rows then NotFound
    else
      var row := store.rows[id];
      if row.status == Pending then StillPending
      else match row.results
        case None => ServerError
        case Some(res) => Summary(res.verdict, res.risk.compositeRugLikelihood, res.chain, res.timestamp)
  }

  /** The six sub-resource routes. */
  datatype Part = MetadataPart | HoldersPart | ClustersPart | LiquidityPart | RiskPart | TemporalPart

  datatype Resource =
    | MetadataResource(metadata: TokenMetadata)
    | HoldersResource(holders: HolderAnalysis)
    | ClustersResource(clusters: seq<WalletCluster>)
    | LiquidityResource(liquidity: LiquidityAnalysis)
    | RiskResource(risk: RiskAssessment)
    | TemporalResource(temporal: TemporalAnalysis)

  /** The field of a stored result a route returns. */
  function Field(res: AnalysisResult, part: Part): Resource {
    match part
    case MetadataPart => MetadataResource(res.metadata)
    case HoldersPart => HoldersResource(res.holders)
    case ClustersPart => ClustersResource(res.clusters)
    case LiquidityPart => LiquidityResource(res.liquidity)
    case RiskPart => RiskResource(res.risk)
    case TemporalPart => TemporalResource(res.temporal)
  }

  /** `GET /api/analysis/:id/<part>`: not found unless a result is stored. */
  function GetResource(store: Store, id: JsString, part: Part): (r: Option<Resource>)
    ensures r.None? <==> id !in store.rows || store.rows[id].results.None?
    ensures r.Some? ==> r.value == Field(store.rows[id].results.value, part)
  {
    if id !in store.rows then None
    else match store.rows[id].results
      case None => None
      case Some(res) => Some(Field(res, part))
  }

  /** On a valid store the routes agree on the row's state: a sub-resource
      is found exactly when the summary is available, which is exactly when
      the analysis completed; a failed analysis is an error for the summary
      route and not-found for the others. */
  lemma RoutesAgree(store: Store, id: JsString, part: Part)
    requires store.Valid()
    ensures GetResource(store, id, part).Some? <==> GetSummary(store, id).Summary?
    ensures GetSummary(store, id).Summary? <==> id in store.rows && store.rows[id].status == Completed
    ensures GetSummary(store, id).ServerError? <==> id in store.rows && store.rows[id].status == Failed
  {
  }

  // ---------------------------------------------------------------------
  // Whole lifecycles
  // ---------------------------------------------------------------------

  /** A request, or the background run of an analysis in the environment
      it meets (whether it throws, the clock, the confidence draws). */
  datatype Event =
    | InitEvent(id: JsString, input: Option<JsString>, userId: Option<JsString>)
    | RunEvent(id: JsString, env: RunEnv)

  /** The store after an init request: the accepted store, or the old one
      when the request is rejected. */
  function AfterInit(store: Store, id: JsString, input: Option<JsString>, userId: Option<JsString>): Store
  {
    match Init(store, id, input, userId)
    case Accepted(next, _) => next
    case _ => store
  }

  /** The store after one event. */
  function Apply(store: Store, e: Event): (s: Store)
    ensures store.Valid() ==> s.Valid()
    ensures store.Valid() && store.Classified() && store.ResultsBelong() ==>
      s.Valid() && s.Classified() && s.ResultsBelong()
  {
    match e
    case InitEvent(id, input, userId) =>
      if store.Classified() then
        InitKeepsClassified(store, id, input, userId);
        AfterInit(store, id, input, userId)
      else AfterInit(store, id, input, userId)
    case RunEvent(id, env) =>
      if store.Valid() && store.Classified() && store.ResultsBelong() then
        RunFullAnalysisPreservesInvariants(store, id, env);
        RunFullAnalysis(store, id, env)
      else RunFullAnalysis(store, id, env)
  }

  /** A run event is the terminal write of the run's outcome. */
  lemma RunEventSettles(store: Store, id: JsString, env: RunEnv)
    requires id in store.jobs
    ensures Apply(store, RunEvent(id, env)) == Settle(store, id,
      if env.fails then None else Some(RunPipeline(id, store.jobs[id], env.timestamp, env.confidences)))
  {
  }

  function Replay(store: Store, events: seq<Event>): Store
    decreases |events|
  {
    if |events| == 0 then store else Replay(Apply(store, events[0]), events[1..])
  }

  lemma {:induction false} ReplayPreservesValid(store: Store, events: seq<Event>)
    requires store.Valid()
    ensures Replay(store, events).Valid()
    decreases |events|
  {
    if |events| > 0 {
      ReplayPreservesValid(Apply(store, events[0]), events[1..]);
    }
  }

  /** Every interleaving of requests and runs keeps all three invariants:
      in particular a stored result always belongs to its row. */
  lemma {:induction false} ReplayPreservesInvariants(store: Store, events: seq<Event>)
    requires store.Valid() && store.Classified() && store.ResultsBelong()
    ensures var s := Replay(store, events);
      s.Valid() && s.Classified() && s.ResultsBelong()
    decreases |events|
  {
    if |events| > 0 {
      ReplayPreservesInvariants(Apply(store, events[0]), events[1..]);
    }
  }

  /** A settled row never changes again, and no row is ever removed. */
  lemma {:induction false} SettledRowsAreFinal(store: Store, events: seq<Event>, id: JsString)
    requires store.Valid()
    requires id in store.rows && store.rows[id].status != Pending
    ensures id in Replay(store, events).rows && Replay(store, events).rows[id] == store.rows[id]
    decreases |events|
  {
    if |events| > 0 {
      var next := Apply(store, events[0]);
      assert id in next.rows && next.rows[id] == store.rows[id];
      SettledRowsAreFinal(next, events[1..], id);
    }
  }

  /** Init followed by a successful run: the summary route serves the
      pipeline's verdict and composite for the submitted input. */
  lemma InitThenRunSummary(store: Store, id: JsString, input: JsString, userId: Option<JsString>, env: RunEnv)
    requires id !in store.rows && !env.fails
    ensures Init(store, id, Some(input), userId).Accepted?
    ensures var s := RunFullAnalysis(Init(store, id, Some(input), userId).store, id, env);
      var res := RunPipeline(id, input, env.timestamp, env.confidences);
      GetSummary(s, id) == Summary(res.verdict, res.risk.compositeRugLikelihood, DetectChain(input), env.timestamp)
  {
  }

  /** Init followed by a successful run: every sub-resource route serves
      its field of the pipeline's result. */
  lemma InitThenRunResource(store: Store, id: JsString, input: JsString, userId: Option<JsString>, env: RunEnv, part: Part)
    requires id !in store.rows && !env.fails
    ensures Init(store, id, Some(input), userId).Accepted?
    ensures var s := RunFullAnalysis(Init(store, id, Some(input), userId).store, id, env);
      GetResource(s, id, part) == Some(Field(RunPipeline(id, input, env.timestamp, env.confidences), part))
  {
  }

  /** Before its run, a fresh analysis reads as pending on the summary route
      and as not found on every sub-resource route. */
  lemma FreshAnalysisIsPending(store: Store, id: JsString, input: JsString, userId: Option<JsString>, part: Part)
    requires id !in store.rows
    ensures var s := Init(store, id, Some(input), userId).store;
      GetSummary(s, id) == StillPending && GetResource(s, id, part).None?
  {
  }
}
