/** The liquidity picture synthesised from the identifier
    (`fetchLiquidity`): one primary pool whose venue, depth, lock and LP
    ownership follow chain-specific thresholds on a single base draw. */
module LiquidityAnalyzer {
  import opened JsStrings
  import opened MarketService
  import opened SignalTypes

  /** Dollars of liquidity per point of the base draw. */
  const SolanaUnit: int := 10000
  const EvmUnit: int := 50000

  /** Base draws above these lock the pool. */
  const SolanaLockAbove: int := 30
  const EvmLockAbove: int := 40

  /** Base draws above these mean the deployer side holds all LP tokens. */
  const SolanaFullOwnershipAbove: int := 80
  const EvmFullOwnershipAbove: int := 70

  /** The Solana venue switches from Orca to Raydium above this draw. */
  const RaydiumAbove: int := 50

  /** `getDeterministicScore(address, 'liq_base', 0, 100)` */
  function LiquidityBase(address: JsString): (s: int)
    ensures 0 <= s <= 100
  {
    Score(address, "liq_base", 0, 100)
  }

  function LockAbove(chain: Chain): int {
    if chain == Solana then SolanaLockAbove else EvmLockAbove
  }

  function FullOwnershipAbove(chain: Chain): int {
    if chain == Solana then SolanaFullOwnershipAbove else EvmFullOwnershipAbove
  }

  /** The pool's display address. */
  function PoolAddress(chain: Chain, address: JsString): JsString {
    if chain == Solana then Units("pool_") + Slice(address, 0, 8)
    else Units("0x") + Slice(address, 2, 10) + Units("...lp")
  }

  /** The single pool pushed onto `primaryPools`. */
  function PrimaryPool(chain: Chain, address: JsString): (p: LiquidityPool)
    ensures var base := LiquidityBase(address);
      && (chain == Solana ==> (p.platform == "Raydium" <==> base > RaydiumAbove))
      && (chain == Solana ==> (p.platform == "Orca" <==> base <= RaydiumAbove))
      && (chain != Solana ==> (p.platform == "Aerodrome" <==> chain == Base))
      && (chain != Solana ==> (p.platform == "Uniswap V3" <==> chain == Ethereum))
      && (chain == Solana ==> p.liquidityUSD == base * SolanaUnit)
      && (chain != Solana ==> p.liquidityUSD == base * EvmUnit)
      && (p.isLocked <==> base > LockAbove(chain))
      && (base > FullOwnershipAbove(chain) ==> p.ownershipPercentage == 100)
      && (base <= FullOwnershipAbove(chain) ==> p.ownershipPercentage == base)
    ensures 0 <= p.ownershipPercentage <= 100
    ensures 0 <= p.proximityToDev <= 100
    ensures p.address == PoolAddress(chain, address)
  {
    var base := LiquidityBase(address);
    var proximity := Score(address, "dev_prox", 0, 100);
    if chain == Solana then
      LiquidityPool(
        if base > RaydiumAbove then "Raydium" else "Orca",
        PoolAddress(chain, address),
        base * SolanaUnit,
        base > SolanaLockAbove,
        if base > SolanaFullOwnershipAbove then 100 else base,
        proximity)
    else
      LiquidityPool(
        if chain == Base then "Aerodrome" else "Uniswap V3",
        PoolAddress(chain, address),
        base * EvmUnit,
        base > EvmLockAbove,
        if base > EvmFullOwnershipAbove then 100 else base,
        proximity)
  }

  /** `primaryPools.reduce((acc, pool) => acc + pool.liquidityUSD, 0)` */
  function TotalLiquidity(pools: seq<LiquidityPool>): int {
    if |pools| == 0 then 0 else TotalLiquidity(pools[..|pools| - 1]) + pools[|pools| - 1].liquidityUSD
  }

  lemma TotalOfOne(p: LiquidityPool)
    ensures TotalLiquidity([p]) == p.liquidityUSD
  {
    assert [p][..0] == [];
  }

  /** `fetchLiquidity(chain, address)` */
  function FetchLiquidity(chain: Chain, address: JsString): (l: LiquidityAnalysis)
    ensures |l.primaryPools| == 1 && l.primaryPools[0] == PrimaryPool(chain, address)
    ensures l.totalLiquidityUSD == TotalLiquidity(l.primaryPools)
    ensures l.totalLiquidityUSD == l.primaryPools[0].liquidityUSD
    ensures 0 <= l.lpOwnershipRisk <= 100
    ensures 0 <= l.removalRisk <= 100
    ensures 0 <= l.depthScore <= 100
  {
    var pools := [PrimaryPool(chain, address)];
    TotalOfOne(pools[0]);
    LiquidityAnalysis(
      pools,
      TotalLiquidity(pools),
      Score(address, "lp_risk", 0, 100),
      Score(address, "rem_risk", 0, 100),
      Score(address, "depth", 0, 100))
  }

  /** The dollar depth at which a pool counts as locked. */
  function LockDepth(chain: Chain): int {
    if chain == Solana then SolanaLockAbove * SolanaUnit else EvmLockAbove * EvmUnit
  }

  /** The lock flag is a threshold on the pool's dollar depth: more than
      $300,000 on Solana, more than $2,000,000 elsewhere. */
  lemma LockedIffDeepEnough(chain: Chain, address: JsString)
    ensures var p := FetchLiquidity(chain, address).primaryPools[0];
      p.isLocked <==> p.liquidityUSD > LockDepth(chain)
  {
    var base := LiquidityBase(address);
    if chain == Solana {
      DepthMonotone(base, SolanaLockAbove, SolanaUnit);
    } else {
      DepthMonotone(base, EvmLockAbove, EvmUnit);
    }
  }

  lemma DepthMonotone(base: int, cut: int, unit: int)
    requires unit > 0
    ensures base > cut <==> base * unit > cut * unit
  {
    if base > cut {
      assert base * unit - cut * unit == (base - cut) * unit;
    } else {
      assert cut * unit - base * unit == (cut - base) * unit;
    }
  }

  /** Below full ownership the LP share is the base draw itself, so it can
      be read back from the dollar depth. */
  lemma PartialOwnershipFromDepth(chain: Chain, address: JsString)
    ensures var p := FetchLiquidity(chain, address).primaryPools[0];
      p.ownershipPercentage < 100 ==>
        p.ownershipPercentage * (if chain == Solana then SolanaUnit else EvmUnit) == p.liquidityUSD
  {
  }

  /** Full ownership exactly when the draw clears the chain's cut-off. */
  lemma FullOwnershipIffAbove(chain: Chain, address: JsString)
    ensures var p := FetchLiquidity(chain, address).primaryPools[0];
      p.ownershipPercentage == 100 <==> LiquidityBase(address) > FullOwnershipAbove(chain)
  {
  }

  /** The venues are chain-specific: Raydium and Orca only on Solana. */
  lemma VenueIdentifiesSolana(chain: Chain, address: JsString)
    ensures var p := FetchLiquidity(chain, address).primaryPools[0];
      (p.platform == "Raydium" || p.platform == "Orca") <==> chain == Solana
  {
  }
}
