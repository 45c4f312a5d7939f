/** Token metadata synthesised from the identifier (`fetchMetadata`): a
    name/symbol pair from a fixed lexicon, chain-dependent decimals and
    creation marker, a shortened deployer, and on Solana a launchpad
    classification. */
module MetadataFetcher {
  import opened Wrappers
  import opened JsStrings
  import opened MarketService
  import opened SignalTypes

  const Names: seq<string> :=
    ["Pepe", "Dogecoin", "Shiba Inu", "Floki", "Bonk", "Wif", "Popcat", "Mog", "Brett", "Toshi"]
  const Symbols: seq<string> :=
    ["PEPE", "DOGE", "SHIB", "FLOKI", "BONK", "WIF", "POPCAT", "MOG", "BRETT", "TOSHI"]

  const TotalSupply: string := "1000000000000000"

  const BlockBase: int := 18000000
  const BlockStride: int := 100
  const SlotBase: int := 250000000
  const SlotStride: int := 1000

  /** `nameSeed`: the draw that picks the lexicon entry and the creation
      marker. */
  function NameSeed(address: JsString): (n: int)
    ensures 0 <= n <= 1000
  {
    Score(address, "name", 0, 1000)
  }

  /** `s.toLowerCase()` restricted to what can matter for a comparison with
      lower-case ASCII text: only `A`-`Z` fold onto `p`, `u` or `m`. */
  function LowerAscii(s: JsString): (r: JsString)
    ensures |r| == |s|
    ensures forall k :: 0 <= k < |s| ==> r[k] == AsciiLower(s[k])
  {
    if |s| == 0 then [] else LowerAscii(s[..|s| - 1]) + [AsciiLower(s[|s| - 1])]
  }

  /** `address.toLowerCase().endsWith('pump')` */
  predicate EndsWithPump(address: JsString) {
    |address| >= 4 && LowerAscii(address)[|address| - 4..] == Units("pump")
  }

  /** `0x${address.slice(2, 10)}...${address.slice(-4)}`: units 2 to 9 and
      the last four, each clamped to the identifier's length. */
  function Deployer(address: JsString): (r: JsString)
    ensures var n := |address|;
      var lo := if n < 2 then n else 2;
      var hi := if n < 10 then n else 10;
      var k := if n < 4 then n else 4;
      r == Units("0x") + address[lo..hi] + Units("...") + address[n - k..]
    ensures |address| >= 10 ==>
              |r| == 17 && r[..2] == Units("0x") && r[2..10] == address[2..10]
              && r[10..13] == Units("...") && r[13..] == address[|address| - 4..]
  {
    Units("0x") + Slice(address, 2, 10) + Units("...") + SliceFrom(address, -4)
  }

  /** A short identifier such as `pepe`, which is classified as Ethereum,
      gets the clamped slices: `0xpe...pepe`. */
  lemma ShortIdentifierDeployer()
    ensures Deployer(Units("pepe")) == Units("0xpe...pepe")
  {
    var p := Units("pepe");
    assert p[2..4] == Units("pe") && p[0..] == p;
    assert Units("0x") + Units("pe") + Units("...") + p == Units("0xpe...pepe");
  }

  /** The Solana-only launchpad fields: type, bonding-curve progress and
      graduation. */
  function Launchpad(address: JsString): (r: (LaunchpadType, Option<int>, Option<bool>))
    ensures r.0 == PumpFun <==> EndsWithPump(address)
    ensures r.0 == Bonk <==> !EndsWithPump(address) && NameSeed(address) % 5 == 0
    ensures r.1.Some? <==> r.0 == PumpFun
    ensures r.2.Some? <==> r.0 == PumpFun
    ensures r.1.Some? ==> 0 <= r.1.value <= 100 && r.2 == Some(r.1.value == 100)
    ensures r.1.Some? ==> r.1.value == Score(address, "bonding", 0, 100)
  {
    if EndsWithPump(address) then
      var progress := Score(address, "bonding", 0, 100);
      (PumpFun, Some(progress), Some(progress == 100))
    else if NameSeed(address) % 5 == 0 then (Bonk, None, None)
    else (Standard, None, None)
  }

  /** `fetchMetadata(chain, address)` */
  function FetchMetadata(chain: Chain, address: JsString): (m: TokenMetadata)
    ensures m.chain == chain
    ensures m.decimals == (if chain == Solana then 6 else 18)
    ensures m.totalSupply == TotalSupply
    ensures m.name == Names[NameSeed(address) % 10] && m.symbol == Symbols[NameSeed(address) % 10]
    ensures m.creationBlock.Some? <==> chain != Solana
    ensures m.creationSlot.Some? <==> chain == Solana
    ensures m.creationBlock == (if chain == Solana then None else Some(BlockBase + NameSeed(address) * BlockStride))
    ensures m.creationSlot == (if chain == Solana then Some(SlotBase + NameSeed(address) * SlotStride) else None)
    ensures m.creationBlock.Some? ==> BlockBase <= m.creationBlock.value <= BlockBase + 1000 * BlockStride
    ensures m.creationSlot.Some? ==> SlotBase <= m.creationSlot.value <= SlotBase + 1000 * SlotStride
    ensures m.deployer == Deployer(address)
    ensures chain != Solana ==> m.launchpadType.None? && m.bondingCurveProgress.None? && m.isGraduated.None?
    ensures chain == Solana ==> m.launchpadType.Some?
    ensures m.launchpadType == Some(PumpFun) <==> chain == Solana && EndsWithPump(address)
    ensures m.launchpadType == Some(Bonk) <==> chain == Solana && !EndsWithPump(address) && NameSeed(address) % 5 == 0
    ensures m.bondingCurveProgress.Some? <==> m.launchpadType == Some(PumpFun)
    ensures m.bondingCurveProgress.Some? ==>
      0 <= m.bondingCurveProgress.value <= 100 && m.isGraduated == Some(m.bondingCurveProgress.value == 100)
    ensures m.bondingCurveProgress.Some? ==> m.bondingCurveProgress.value == Score(address, "bonding", 0, 100)
  {
    var seed := NameSeed(address);
    var base := TokenMetadata(
      Names[seed % 10], Symbols[seed % 10],
      if chain == Solana then 6 else 18,
      TotalSupply,
      chain,
      if chain == Solana then None else Some(BlockBase + seed * BlockStride),
      if chain == Solana then Some(SlotBase + seed * SlotStride) else None,
      Deployer(address),
      None, None, None);
    if chain == Solana then
      var (kind, progress, graduated) := Launchpad(address);
      base.(launchpadType := Some(kind), bondingCurveProgress := progress, isGraduated := graduated)
    else base
  }

  /** The creation marker is invertible: it gives back `nameSeed`, and with
      it the lexicon entry. */
  function SeedOfMarker(m: TokenMetadata): int {
    if m.creationBlock.Some? then (m.creationBlock.value - BlockBase) / BlockStride
    else if m.creationSlot.Some? then (m.creationSlot.value - SlotBase) / SlotStride
    else 0
  }

  lemma CreationMarkerRecoversSeed(chain: Chain, address: JsString)
    ensures var m := FetchMetadata(chain, address);
      SeedOfMarker(m) == NameSeed(address) && m.name == Names[SeedOfMarker(m) % 10]
  {
    var m := FetchMetadata(chain, address);
    var seed := NameSeed(address);
    if chain == Solana {
      ModUnique(m.creationSlot.value - SlotBase, SlotStride, seed, 0);
      assert (m.creationSlot.value - SlotBase) / SlotStride == seed;
    } else {
      ModUnique(m.creationBlock.value - BlockBase, BlockStride, seed, 0);
      assert (m.creationBlock.value - BlockBase) / BlockStride == seed;
    }
  }

  /** The ten names are distinct, so a name identifies its lexicon slot. */
  lemma NamesDistinct()
    ensures forall i, j :: 0 <= i < j < |Names| ==> Names[i] != Names[j]
  {
  }

  /** `name` and `symbol` always come from the same slot: two results with
      the same name have the same symbol, whatever the chain or address. */
  lemma NameDeterminesSymbol(c1: Chain, a1: JsString, c2: Chain, a2: JsString)
    requires FetchMetadata(c1, a1).name == FetchMetadata(c2, a2).name
    ensures FetchMetadata(c1, a1).symbol == FetchMetadata(c2, a2).symbol
  {
    var m1 := FetchMetadata(c1, a1);
    var m2 := FetchMetadata(c2, a2);
    SlotOfName(NameSeed(a1) % 10, NameSeed(a2) % 10);
  }

  lemma SlotOfName(i: nat, j: nat)
    requires i < |Names| && j < |Names| && Names[i] == Names[j]
    ensures i == j
  {
    NamesDistinct();
  }

  /** Upper and lower case are the same for the pump heuristic. */
  lemma PumpIgnoresAsciiCase(a: JsString, b: JsString)
    requires |a| == |b|
    requires forall k :: 0 <= k < |a| ==> AsciiLower(a[k]) == AsciiLower(b[k])
    ensures EndsWithPump(a) <==> EndsWithPump(b)
  {
    assert LowerAscii(a) == LowerAscii(b);
  }

  /** Concrete instance: a Solana address ending in `PUMP` is a pump.fun
      token; on Ethereum the same address has no launchpad fields. */
  lemma PumpSuffixExample()
    ensures var a: JsString := [0x61, 0x50, 0x55, 0x4D, 0x50];
      FetchMetadata(Solana, a).launchpadType == Some(PumpFun) && FetchMetadata(Ethereum, a).launchpadType.None?
  {
    var a: JsString := [0x61, 0x50, 0x55, 0x4D, 0x50];
    PumpIsAscii();
    assert LowerAscii(a)[1..] == [0x70, 0x75, 0x6D, 0x70];
    assert EndsWithPump(a);
  }

  lemma PumpIsAscii()
    ensures Units("pump") == [0x70, 0x75, 0x6D, 0x70]
  {
  }
}
