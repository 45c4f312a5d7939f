# SplashSignal analysis pipeline in Dafny

A Dafny model of the token-analysis core of SplashSignal. It covers:

- `getDeterministicScore`, the scoring primitive: a 31-multiplier string hash folded in 32-bit signed arithmetic and reduced into a range.
- Chain detection and identifier normalisation (`detectChain`, `normalizeIdentifier`).
- The six synthesis stages `fetchMetadata`, `fetchHolders`, `fetchLiquidity`, `clusterWallets`, `scoreRisk` and `temporalAnalysis`, and the verdict (`generateVerdict`).
- The job lifecycle of the HTTP server:
  - `POST /api/analyze/init` inserts a pending row and dispatches the background run.
  - `runFullAnalysis` executes the stages in order and makes one terminal write, `COMPLETED` with the result or `FAILED`.
  - `GET /api/analysis/:id/summary` and the six sub-resource routes read the row back.

## Modules

Each pipeline module follows one source file. `JsStrings` and `Wrappers` hold the JavaScript built-ins and the `Option` type they all share.

| module | file | models |
|---|---|---|
| `JsStrings` | `js_strings.dfy` | JavaScript strings and the built-ins the pipeline uses |
| `MarketService` | `market_service.dfy` | `getDeterministicScore` |
| `SignalTypes` | `signal_types.dfy` | the records |
| `ChainDetector` | `chain_detector.dfy` | chain detection and normalisation |
| `MetadataFetcher` | `metadata_fetcher.dfy` | `fetchMetadata` |
| `HolderAnalyzer` | `holder_analyzer.dfy` | `fetchHolders` |
| `LiquidityAnalyzer` | `liquidity_analyzer.dfy` | `fetchLiquidity` |
| `WalletClusterer` | `wallet_clusterer.dfy` | `clusterWallets` |
| `RiskScorer` | `risk_scorer.dfy` | `scoreRisk` |
| `TemporalAnalyzer` | `temporal_analyzer.dfy` | `temporalAnalysis` |
| `VerdictGenerator` | `verdict_generator.dfy` | `generateVerdict` |
| `AnalysisServer` | `server.dfy` | the routes and the job store |
| `Wrappers` | `wrappers.dfy` | `Option` |

## How the model represents the source

- **Strings.** A string that comes from the user's input is a `JsString`, a sequence of UTF-16 code units. This is what `charCodeAt`, `slice` and `split` see. Fixed text (names, labels, evidence) is a Dafny `string`.
- **The hash.** The hash step is modelled literally: `ToInt32(ToInt32(h) * 32) - h + c`, followed by `ToInt32`. A lemma shows this is the 32-bit wrap of `31*h + c`.
- **Risk scores.** Risk scores are exact rationals. `Math.round` is `floor(x + 1/2)`.
- **Verdict texts.** A verdict records its band. The band fixes the summary and explanation texts, which are given verbatim by `VerdictGenerator.Summary` and `VerdictGenerator.Explanation`.
- **The job store.** The `analyses` table is a map from id to row. Analyses that have been dispatched but not yet run are a second map from id to raw input, so the background run is an explicit step. Within one process lifetime, init, the background run, and any interleaving of them (`Replay`) preserve these invariants:
  - a row is pending exactly when its run is outstanding;
  - a row holds results exactly when it completed;
  - stored results belong to their row.
- **Init's input.** The request body's `input` is an `Option`. `None` stands for a missing or non-string value. The source throws at `input.trim()` in that case, before the insert, so `AnalysisServer.Init` rejects it and leaves the store unchanged.

## What the proofs show about the source

- **Chain detection ignores the normalisation.** Chain detection runs on the raw input, while every stage runs on the normalised identifier. Any input containing `/` is therefore classified as Ethereum (`AnalysisServer.UrlWrappedInputIsEthereum`), even when the path inside is a Solana address.
- **The proved bound is 108, not 100, and nothing clamps it.** The comment at `src/types/signalos.ts:67` documents scores as 0-100, but the composite rug likelihood is bounded only by 108 and is never clamped. The concentration component is the raw top-10 share, which can be up to 150, and the weighted formula at the components' maxima gives 108 (`RiskScorer.CompositeRange`, `RiskScorer.CompositeCanExceedHundred`). The model does not exhibit an identifier that reaches it. The verdict for such a score would still fall in the top band.
- **Dominance is never reported.** `singleWalletDominance` is always false, because each holder share is at most 15 (`HolderAnalyzer.FetchHolders`). Even so, the concentration evidence always says "Single wallet dominance detected".
- **The creator fallback is dead code.** Holder 5 is always the creator, so the `|| 0` fallback of `creatorShare` is never taken (`HolderAnalyzer.CreatorIsFifth`).
- **Normalisation is not idempotent.** `normalizeIdentifier` does not trim again after cutting at `/` or `?`. So a second pass can change the result, for example `"a/ b"` becomes `" b"` and then `"b"`. The model therefore states what one pass keeps (`ChainDetector.NormalizeMatchesPositions`, `ChainDetector.NormalizedIsInfix`) and does not claim idempotence.

## Model

| member | source | states |
|---|---|---|
| MarketService.ToInt32 | src/services/marketService.ts:46-47 | the 32-bit conversion always lands in the signed 32-bit range |
| MarketService.HashStepIsMultiply | src/services/marketService.ts:46-47 | the shift-subtract-add step of the loop equals the 32-bit wrap of `31*hash + char` |
| MarketService.HashIsPolynomialMod32 | src/services/marketService.ts:42-48 | the folded hash equals the unbounded polynomial hash `sum s[i]*31^(n-1-i)` reduced to signed 32 bits |
| MarketService.ComputeHash | src/services/marketService.ts:42-48 | the loop over the code units computes the recursive fold and hence the polynomial hash mod 2^32 |
| MarketService.HashAppend | src/services/marketService.ts:43-48 | hashing `address + seed` continues the fold of the address over the seed's units |
| MarketService.DeterministicScore | src/services/marketService.ts:41-51 | the result is NaN (None) exactly when `max - min + 1 == 0`; for `min <= max` it lies in `[min, max]` and its offset from `min` is `|hash|` modulo the span |
| MarketService.DefaultScore | src/services/marketService.ts:41 | with the default range the score lies in `[40, 99]` |
| MarketService.Score | src/services/marketService.ts:41-51 | a stage's draw with a non-empty range lies in that range |
| MarketService.ScoreIsDeterministicScore | src/services/marketService.ts:43-50 | the stages' draw is `getDeterministicScore` applied to the seed's UTF-16 units |
| MarketService.ScoreDependsOnConcatenation | src/services/marketService.ts:43 | address and seed matter only through their concatenation |
| MarketService.EmptyKeyScoresMin | src/services/marketService.ts:42-50 | an empty address and seed hash to 0, so the score is `min` |
| MarketService.DegenerateRange | src/services/marketService.ts:50 | a one-point range always yields that point |
| JsStrings.UnitsAreUtf16 | src/services/marketService.ts:45 | for text without astral characters the code units `charCodeAt` sees are the characters themselves |
| JsStrings.NatToStringRoundTrip | src/services/pipeline/holderAnalyzer.ts:13 | the decimal rendering of a natural number reads back as that number |
| JsStrings.Trim | src/services/pipeline/chainDetector.ts:24 | `trim` removes exactly the maximal white-space prefix and suffix and leaves a contiguous piece that neither starts nor ends with white space |
| JsStrings.TrimIdempotent | src/services/pipeline/chainDetector.ts:24 | trimming twice is trimming once |
| JsStrings.Split | src/services/pipeline/chainDetector.ts:28 | `split` yields one piece exactly when the separator is absent, and then the whole string |
| JsStrings.SplitJoin | src/services/pipeline/chainDetector.ts:28 | joining the pieces of `split` with the separator gives the string back |
| JsStrings.SplitPiecesFree | src/services/pipeline/chainDetector.ts:28 | no piece of `split` contains the separator |
| JsStrings.SplitLast | src/services/pipeline/chainDetector.ts:29 | the last piece is the text after the last separator |
| JsStrings.SplitFirst | src/services/pipeline/chainDetector.ts:33 | the first piece is the text before the first separator |
| JsStrings.SliceIsInfix | src/services/pipeline/metadataFetcher.ts:24 | `slice(start, end)` is the piece from the clamped start to the clamped end, of length `end - start` after clamping, and empty when the clamped end does not lie after the clamped start |
| JsStrings.SliceFromIsSuffix | src/services/pipeline/metadataFetcher.ts:24 | `slice(start)` is the suffix from the clamped start; for a negative start it is the last `-start` units, or the whole string when that is shorter, so `slice(-4)` is the last `min(4, n)` units |
| ChainDetector.DetectChain | src/services/pipeline/chainDetector.ts:4-21 | never Base; an EVM-shaped input is Ethereum; Solana exactly for base58-shaped inputs of length 32..44 |
| ChainDetector.ShapesDisjoint | src/services/pipeline/chainDetector.ts:6-15 | no input matches both the EVM and the base58 pattern |
| ChainDetector.CheckOrderIrrelevant | src/services/pipeline/chainDetector.ts:6-20 | testing the two patterns in the other order classifies every input the same way |
| ChainDetector.DecoratedInputIsEthereum | src/services/pipeline/chainDetector.ts:15-20 | an input containing `/`, `?` or white space falls back to Ethereum |
| ChainDetector.NormalizeIdentifier | src/services/pipeline/chainDetector.ts:23-36 | the normalised identifier contains no `/` and no `?` |
| ChainDetector.KeptSegmentIsPathSegment | src/services/pipeline/chainDetector.ts:27-30 | the `split`-based segment choice (last part, or the one before when the last is empty) is the text after the last `/`, ignoring one trailing `/` |
| ChainDetector.NormalizeMatchesPositions | src/services/pipeline/chainDetector.ts:23-36 | normalisation equals an independent position-based definition: the path segment of the trimmed input up to its first `?` |
| ChainDetector.PlainInputOnlyTrimmed | src/services/pipeline/chainDetector.ts:24-35 | an input without `/` and `?` is only trimmed |
| ChainDetector.NormalizedIsInfix | src/services/pipeline/chainDetector.ts:23-36 | the identifier is a contiguous piece of the trimmed input |
| MetadataFetcher.NameSeed | src/services/pipeline/metadataFetcher.ts:9 | the name draw lies in `[0, 1000]` |
| MetadataFetcher.LowerAscii | src/services/pipeline/metadataFetcher.ts:29 | lower-casing keeps the length and folds each unit independently |
| MetadataFetcher.Deployer | src/services/pipeline/metadataFetcher.ts:24 | for every address length, `0x`, units 2..9 of the address clamped to its length, `...`, and its last four units (all of it when shorter); for 10 or more units that is 17 units |
| MetadataFetcher.ShortIdentifierDeployer | src/services/pipeline/metadataFetcher.ts:24 | the four-unit identifier `pepe` gets the deployer `0xpe...pepe` |
| MetadataFetcher.Launchpad | src/services/pipeline/metadataFetcher.ts:28-38 | pump.fun exactly for a `pump` suffix in any case, bonk exactly otherwise when `nameSeed % 5 == 0`; bonding progress and graduation exist only for pump.fun, progress is the `bonding` draw in `[0, 100]`, graduated exactly at 100 |
| MetadataFetcher.FetchMetadata | src/services/pipeline/metadataFetcher.ts:5-42 | name and symbol from the same lexicon slot `nameSeed % 10`; decimals 6 on Solana else 18; off Solana the creation block `18000000 + nameSeed*100` and no slot, on Solana the slot `250000000 + nameSeed*1000` and no block; no launchpad fields off Solana, and the launchpad rules on Solana with the progress being the `bonding` draw |
| MetadataFetcher.CreationMarkerRecoversSeed | src/services/pipeline/metadataFetcher.ts:9-23 | the creation block or slot gives back `nameSeed`, and with it the name |
| MetadataFetcher.NamesDistinct | src/services/pipeline/metadataFetcher.ts:10 | the ten names are pairwise distinct |
| MetadataFetcher.NameDeterminesSymbol | src/services/pipeline/metadataFetcher.ts:13-14 | two results with the same name have the same symbol, whatever chain or address |
| MetadataFetcher.PumpIgnoresAsciiCase | src/services/pipeline/metadataFetcher.ts:29 | addresses equal up to ASCII case agree on the pump heuristic |
| MetadataFetcher.PumpSuffixExample | src/services/pipeline/metadataFetcher.ts:28-31 | a Solana address ending in `PUMP` is pump.fun, and the same address on Ethereum has no launchpad |
| HolderAnalyzer.HolderPercentage | src/services/pipeline/holderAnalyzer.ts:10 | each holder's share lies in `[1, 15]` |
| HolderAnalyzer.HolderAddressShape | src/services/pipeline/holderAnalyzer.ts:12 | on Solana `wallet_`, the index, `_` and the first four units of the identifier; elsewhere `0x`, the index, `...` and the last four units |
| HolderAnalyzer.HolderAddressesDistinct | src/services/pipeline/holderAnalyzer.ts:12 | two holders of the same identifier share an address only if they have the same index |
| HolderAnalyzer.MakeHolder | src/services/pipeline/holderAnalyzer.ts:10-17 | the address in its chain's format (`HolderAnalyzer.HolderAddress`); the balance is the decimal digits of a million times the share; contract exactly at index 0, creator exactly at index 5 |
| HolderAnalyzer.SumPercentagesBounds | src/services/pipeline/holderAnalyzer.ts:18 | shares in `[lo, hi]` bound the running total by `n*lo` and `n*hi` |
| HolderAnalyzer.FirstCreator | src/services/pipeline/holderAnalyzer.ts:25 | `find` returns the first creator: none before it, and it is a creator when found |
| HolderAnalyzer.FetchHolders | src/services/pipeline/holderAnalyzer.ts:5-28 | ten holders, holder `i` drawn from the address with `i` appended; top-10 share is their sum and lies in `[10, 150]`; creator share is holder 5's; dominance never reported; gini in `[0.3, 0.9]` |
| HolderAnalyzer.Gini | src/services/pipeline/holderAnalyzer.ts:23 | the Gini figure lies in `[0.3, 0.9]` |
| HolderAnalyzer.FetchHoldersLoop | src/services/pipeline/holderAnalyzer.ts:6-19 | the loop builds exactly the holder table and accumulates its sum |
| HolderAnalyzer.CreatorIsFifth | src/services/pipeline/holderAnalyzer.ts:16-25 | `find` stops at index 5, so the `|| 0` fallback is never used |
| HolderAnalyzer.FlagsAreSingletons | src/services/pipeline/holderAnalyzer.ts:15-16 | only the first holder is a contract and only the sixth a creator |
| HolderAnalyzer.BalanceEncodesPercentage | src/services/pipeline/holderAnalyzer.ts:13 | reading the balance back and dividing by a million gives the share |
| LiquidityAnalyzer.LiquidityBase | src/services/pipeline/liquidityAnalyzer.ts:6 | the base draw lies in `[0, 100]` |
| LiquidityAnalyzer.PrimaryPool | src/services/pipeline/liquidityAnalyzer.ts:10-28 | Raydium above 50 and Orca otherwise on Solana; Aerodrome exactly on Base and Uniswap V3 exactly on Ethereum; depth is the draw times 10000 or 50000; locked exactly above 30 or 40; full LP ownership above 80 or 70, otherwise the draw itself |
| LiquidityAnalyzer.FetchLiquidity | src/services/pipeline/liquidityAnalyzer.ts:5-39 | exactly one pool; the total is the `reduce` sum and equals that pool's depth; the three risk draws lie in `[0, 100]` |
| LiquidityAnalyzer.LockedIffDeepEnough | src/services/pipeline/liquidityAnalyzer.ts:10-28 | the pool is locked exactly when its depth exceeds $300,000 on Solana or $2,000,000 elsewhere |
| LiquidityAnalyzer.PartialOwnershipFromDepth | src/services/pipeline/liquidityAnalyzer.ts:10-28 | below full ownership the LP share times the unit is the depth |
| LiquidityAnalyzer.FullOwnershipIffAbove | src/services/pipeline/liquidityAnalyzer.ts:16-25 | full ownership exactly when the draw clears the chain's cut-off |
| LiquidityAnalyzer.VenueIdentifiesSolana | src/services/pipeline/liquidityAnalyzer.ts:12-21 | Raydium or Orca exactly on Solana |
| WalletClusterer.RuleCount | src/services/pipeline/walletClusterer.ts:9-31 | each heuristic's wallet count lies in its range |
| WalletClusterer.Detect | src/services/pipeline/walletClusterer.ts:9-39 | a cluster is emitted exactly when the count clears the threshold; it has that many wallets named by index, its type, its evidence and a coordination score in range |
| WalletClusterer.Pushed | src/services/pipeline/walletClusterer.ts:10-17 | a conditional push adds the cluster exactly when there is one |
| WalletClusterer.ClusterWallets | src/services/pipeline/walletClusterer.ts:5-42 | at most three clusters; a funding, timing or behavioural cluster is present exactly when its count exceeds 3, 4 or 2; every present cluster is the one its heuristic built; the list is empty exactly when no count clears its threshold |
| WalletClusterer.ClustersOrderedByType | src/services/pipeline/walletClusterer.ts:8-39 | clusters appear in the order funding, timing, behavioural, so each type at most once, and never an insider cluster |
| WalletClusterer.ClusterFieldsByType | src/services/pipeline/walletClusterer.ts:14-37 | every cluster carries its type's two evidence strings and a coordination score in `[50, 99]` |
| WalletClusterer.EmissionThresholds | src/services/pipeline/walletClusterer.ts:9-35 | funding clusters have 4..8 wallets, timing 5..12, behavioural 3..6, each exactly when its count clears 3, 4 or 2 |
| RiskScorer.OwnershipSignal | src/services/pipeline/riskScorer.ts:15-21 | OWN-01 reads Renounced and low exactly for a graduated token, Active and high otherwise |
| RiskScorer.ClusterSignal | src/services/pipeline/riskScorer.ts:22-28 | CLU-01 carries the cluster count, critical exactly above two clusters, medium otherwise |
| RiskScorer.LiquiditySignal | src/services/pipeline/riskScorer.ts:29-35 | LIQ-01 is Stable exactly below 30, Volatile from 30; high exactly above 50, low otherwise |
| RiskScorer.InsiderScore | src/services/pipeline/riskScorer.ts:61-65 | zero with no clusters; otherwise the score times the count is the sum of coordination scores |
| RiskScorer.SumCoordinationBounds | src/services/pipeline/riskScorer.ts:62 | coordination scores in `[lo, hi]` bound the `reduce` sum by `n*lo` and `n*hi` |
| RiskScorer.QuietIdentifierHasNoInsiderRisk | src/services/pipeline/riskScorer.ts:61-65 | when no heuristic count clears its threshold there are no clusters and the insider score is 0 |
| RiskScorer.InsiderScoreIsMean | src/services/pipeline/riskScorer.ts:62 | for a non-empty list the insider score lies between the smallest and largest possible coordination score |
| RiskScorer.OwnershipScore | src/services/pipeline/riskScorer.ts:46-47 | the ownership score lies in `[10, 90]` |
| RiskScorer.ContractScore | src/services/pipeline/riskScorer.ts:66-67 | the contract score lies in `[5, 40]` |
| RiskScorer.ConcentrationTextEncodes | src/services/pipeline/riskScorer.ts:54 | the concentration evidence carries the top-10 share, readable back from its digits |
| RiskScorer.ClusterCountTextEncodes | src/services/pipeline/riskScorer.ts:26 | the cluster description carries the count, readable back from its digits |
| RiskScorer.Round | src/services/pipeline/riskScorer.ts:79 | the rounded value is within half a unit, ties upwards |
| RiskScorer.RoundUnique | src/services/pipeline/riskScorer.ts:79 | only one integer is within that half-open window |
| RiskScorer.RoundMonotone | src/services/pipeline/riskScorer.ts:79 | rounding is monotone |
| RiskScorer.HalfRoundsUp | src/services/pipeline/riskScorer.ts:79 | exact halves round up, as `Math.round` does |
| RiskScorer.ScoreRisk | src/services/pipeline/riskScorer.ts:5-91 | the three signals in order; the component scores and their ranges; the six labels; the ownership, liquidity and contract evidence; the composite is the rounded 0.2/0.2/0.3/0.3 weighted sum, within half a unit of it; the composite's evidence is the first liquidity and the first insider item; each confidence is its own draw |
| RiskScorer.FirstOfEach | src/services/pipeline/riskScorer.ts:85-88 | concatenating `slice(0, 1)` of two non-empty lists gives their two heads |
| RiskScorer.ContractRiskIgnored | src/services/pipeline/riskScorer.ts:79-84 | the contract score and the old composite never affect the composite |
| RiskScorer.CompositeMonotone | src/services/pipeline/riskScorer.ts:79-84 | the composite is non-decreasing in each counted component |
| RiskScorer.CompositeRange | src/services/pipeline/riskScorer.ts:79-84 | with the stages' input ranges the composite lies in `[4, 108]` |
| RiskScorer.CompositeCanExceedHundred | src/services/pipeline/riskScorer.ts:79-84 | the weighted formula at the components' maxima gives 108, so the bound is 108, not 100 |
| RiskScorer.CompositeExample | src/services/pipeline/riskScorer.ts:79-84 | scores 50, 30, 40 and 60 give 46 |
| TemporalAnalyzer.Temporal | src/services/pipeline/temporalAnalyzer.ts:5-25 | the phase is slot `base % 3`; the four scores lie in `[0, 100]`; three evidence sentences: the phase sentence, high velocity exactly above 70 and steady otherwise, then persistence |
| TemporalAnalyzer.PhaseTextRoundTrip | src/services/pipeline/temporalAnalyzer.ts:20 | the phase can be read back out of the first evidence sentence |
| TemporalAnalyzer.PhaseDeterminesResidue | src/services/pipeline/temporalAnalyzer.ts:8-9 | two results with the same phase have base draws congruent modulo 3 |
| TemporalAnalyzer.PhaseSlot | src/services/pipeline/temporalAnalyzer.ts:8 | the three phase names are distinct |
| TemporalAnalyzer.DistributionDraws | src/services/pipeline/temporalAnalyzer.ts:8-9 | the distribution phase is reported exactly for base draws `2 mod 3` |
| VerdictGenerator.Band | src/services/pipeline/verdictGenerator.ts:10-22 | each band holds exactly on its interval: below 20, 20..50, 50..80, from 80 |
| VerdictGenerator.BandIsThresholdCount | src/services/pipeline/verdictGenerator.ts:10-22 | the band's rank equals the number of thresholds 20, 50, 80 the composite has reached |
| VerdictGenerator.BandMonotone | src/services/pipeline/verdictGenerator.ts:10-22 | a larger composite never gives a milder band |
| VerdictGenerator.GenerateVerdict | src/services/pipeline/verdictGenerator.ts:4-29 | the verdict is the composite's band with the composite's confidence |
| VerdictGenerator.SummaryBands | src/services/pipeline/verdictGenerator.ts:10-22 | each summary text appears exactly on its composite interval |
| VerdictGenerator.SummariesDistinct | src/services/pipeline/verdictGenerator.ts:11-20 | the four summaries are distinct, so the summary identifies the band |
| VerdictGenerator.SummaryDeterminesExplanation | src/services/pipeline/verdictGenerator.ts:10-22 | equal summaries imply equal explanations |
| VerdictGenerator.BandBoundaries | src/services/pipeline/verdictGenerator.ts:10-22 | 19 and 20, 49 and 50, 79 and 80 fall on either side of the thresholds, and 108 is in the top band |
| AnalysisServer.EmptyStoreValid | server.ts:39-49 | a newly created, empty `analyses` table satisfies the store invariants |
| AnalysisServer.RunPipeline | server.ts:80-118 | classification on the raw input, every stage on the normalised identifier, the verdict from the scorer's risk, the given clock value |
| AnalysisServer.UrlWrappedInputIsEthereum | server.ts:81-85 | an input containing `/` is analysed as an Ethereum token with 18 decimals and no launchpad, whatever the identifier inside it |
| AnalysisServer.VerdictMatchesRisk | server.ts:97-103 | the stored verdict's band is that of the stored composite, and its confidence is the composite's draw |
| AnalysisServer.Settle | server.ts:120-126 | completion stores the result, failure leaves `results_json` alone; the job is consumed; no other row changes and no row appears or disappears; `Valid` is preserved, while `ResultsBelong` needs a matching result (`AnalysisServer.SettleKeepsBelonging`) |
| AnalysisServer.RunFullAnalysis | server.ts:79-128 | a run is the terminal write of the pipeline's result, or of the failure when it throws; without an outstanding job nothing changes |
| AnalysisServer.RunFullAnalysisPreservesInvariants | server.ts:79-128 | a run preserves the invariants, and the stored result belongs to its row |
| AnalysisServer.SettleKeepsBelonging | server.ts:120-126 | a terminal write with a matching result keeps every invariant |
| AnalysisServer.StoredUserId | server.ts:173 | `userId || null` stores null exactly for an absent or empty user id |
| AnalysisServer.Init | server.ts:156-179 | a missing or non-string input is rejected before the insert, and only then is a duplicate id rejected; otherwise exactly one new row, pending with no results, classified from the input, the job map extended by exactly that id and input, the reply carrying id, chain and `PENDING`; the invariants are preserved |
| AnalysisServer.InitKeepsClassified | server.ts:169-176 | the dispatched run will see the input its row was classified from |
| AnalysisServer.GetSummary | server.ts:181-192 | not found exactly for an unknown id, pending exactly for a pending row, an error exactly for a settled row without results, otherwise the verdict, composite, chain and timestamp of the stored result |
| AnalysisServer.GetResource | server.ts:194-234 | not found exactly when no result is stored, otherwise the requested field of the stored result |
| AnalysisServer.RoutesAgree | server.ts:181-234 | on a valid store a sub-resource is found exactly when the summary is served, exactly for completed rows, and the summary errs exactly for failed rows |
| AnalysisServer.Apply | server.ts:79-179 | every request, accepted or rejected, and every background run preserves the store invariants, including that stored results belong to their row |
| AnalysisServer.RunEventSettles | server.ts:79-128 | a run event is the terminal write of the pipeline's result on the job's input, or of the failure when it throws |
| AnalysisServer.ReplayPreservesValid | server.ts:79-179 | any interleaving of requests and runs keeps a row pending exactly while its run is outstanding, and holding results exactly when completed |
| AnalysisServer.ReplayPreservesInvariants | server.ts:79-179 | any interleaving of requests and runs keeps all three invariants, so every stored result belongs to its row |
| AnalysisServer.SettledRowsAreFinal | server.ts:120-126 | a completed or failed row never changes again and is never removed |
| AnalysisServer.InitThenRunSummary | server.ts:156-192 | after init and a successful run the summary route serves the pipeline's verdict, composite, detected chain and timestamp |
| AnalysisServer.InitThenRunResource | server.ts:156-234 | after init and a successful run every sub-resource route serves its field of the pipeline's result |
| AnalysisServer.FreshAnalysisIsPending | server.ts:172-184 | before its run a new analysis reads as pending on the summary route and as not found on the others |

## Left out

- Authentication, sign-up and login, the archive and saved-item routes, the `users` and `saved_items` tables, the `created_at` and `expires_at` columns, and the Express and Vite setup: they are outside the analysis core. The user id reaches `Init` as a parameter.
- The network-backed functions of `marketService.ts`: they are I/O and not part of the scoring primitive.
- `Math.random` in `createScore`: the six confidence draws are a parameter (`RiskScorer.Confidences`), with no range assumed.
- `Date.now()`: the result timestamp is a parameter.
- `uuidv4()`: the fresh id is a parameter, and a collision is modelled as the rejected insert `DuplicateId`.
- IEEE-754 arithmetic:
  - Scores and the composite are exact rationals, so a weighted sum that lands within rounding error of a `.5` boundary may round differently in JavaScript.
  - `giniCoefficient` is the exact quotient.
- JSON serialisation of `results_json`: results are stored as values. Reading `.verdict` from the `null` that a failed row parses to is modelled as `ServerError`.
- Concurrency: the background run is an explicit event. Interleavings are any sequence of events (`AnalysisServer.Replay`), not parallel execution.
- A crash or restart of the server: it is not an event. Outstanding runs live only in the memory of the process that dispatched them (`server.ts:176`), while the `analyses` rows persist in the database file. A restart therefore leaves every `PENDING` row without a run, so it stays `PENDING` forever and the summary route keeps reporting it as pending. The invariant that a row is pending exactly when its run is outstanding holds only within one process lifetime.
- AnalysisServer.RunFullAnalysis: whether a run throws is the parameter `fails`, because none of the modelled stages can throw on a string input. A throw would come from the database or runtime, which are outside the model.
- The console logging in `runFullAnalysis`: it has no effect on the store.
- MetadataFetcher.LowerAscii: folds only `A`-`Z`, not all of `toLowerCase`. The only non-ASCII characters whose lower case contains ASCII letters are the Kelvin sign and dotted capital I. They lower-case to `k` and to `i` plus a combining dot, so neither can produce the `pump` suffix, and `endsWith('pump')` is unaffected.
- RiskScorer.ConcentrationText: renders `toFixed(1)` as the integer followed by `.0`, which is exact only because the top-10 share is always an integer.
- JsStrings.Units: maps characters outside the Basic Multilingual Plane to one code unit each. It is used only on the model's own ASCII literals. `JsStrings.UnitsAreUtf16` shows it equals the UTF-16 encoding there.
- VerdictGenerator.GenerateVerdict: the verdict records its band, not the two texts. The texts are a function of the band (`VerdictGenerator.Summary`, `VerdictGenerator.Explanation`), given verbatim.
- `base` as a detected chain: `detectChain` never returns it (`ChainDetector.DetectChain`). The Base branches of the stages are modelled but unreachable from the server.
