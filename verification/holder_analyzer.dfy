/** The top-holder table synthesised from the identifier (`fetchHolders`):
    ten holders, each seeded by the identifier with its index appended, and
    the aggregate figures derived from them. */
module HolderAnalyzer {
  import opened Wrappers
  import opened JsStrings
  import opened MarketService
  import opened SignalTypes

  const HolderCount: nat := 10
  const ContractIndex: nat := 0
  const CreatorIndex: nat := 5
  /** The share above which `singleWalletDominance` is reported. */
  const DominanceThreshold: int := 20

  /** The draw for holder `i`: `getDeterministicScore(address + i, 'holder_perc', 1, 15)`. */
  function HolderPercentage(address: JsString, i: nat): (p: int)
    ensures 1 <= p <= 15
  {
    Score(address + Units(NatToString(i)), "holder_perc", 1, 15)
  }

  /** The display address of holder `i`. */
  function HolderAddress(chain: Chain, address: JsString, i: nat): JsString {
    if chain == Solana then Units("wallet_") + Units(NatToString(i)) + Units("_") + Slice(address, 0, 4)
    else Units("0x") + Units(NatToString(i)) + Units("...") + SliceFrom(address, -4)
  }

  /** A holder's display address: on Solana `wallet_`, the index, `_` and
      the first four units of the identifier; elsewhere `0x`, the index,
      `...` and the last four units (fewer when the identifier is
      shorter). */
  lemma HolderAddressShape(chain: Chain, address: JsString, i: nat)
    ensures var a := HolderAddress(chain, address, i);
      var k := if |address| < 4 then |address| else 4;
      if chain == Solana then a == Units("wallet_") + Units(NatToString(i)) + Units("_") + address[..k]
      else a == Units("0x") + Units(NatToString(i)) + Units("...") + address[|address| - k..]
  {
  }

  /** The ten holders of one identifier have pairwise distinct addresses:
      the index sits between a fixed prefix and a fixed suffix. */
  lemma HolderAddressesDistinct(chain: Chain, address: JsString, i: nat, j: nat)
    requires HolderAddress(chain, address, i) == HolderAddress(chain, address, j)
    ensures i == j
  {
    var di, dj := NatToString(i), NatToString(j);
    var pre := if chain == Solana then Units("wallet_") else Units("0x");
    var post := if chain == Solana then Units("_") + Slice(address, 0, 4) else Units("...") + SliceFrom(address, -4);
    assert HolderAddress(chain, address, i) == pre + Units(di) + post;
    assert HolderAddress(chain, address, j) == pre + Units(dj) + post;
    assert |di| == |dj|;
    assert Units(di) == (pre + Units(di) + post)[|pre|..|pre| + |di|];
    assert Units(dj) == (pre + Units(dj) + post)[|pre|..|pre| + |dj|];
    assert forall k :: 0 <= k < |di| ==> Units(di)[k] == di[k] as int && Units(dj)[k] == dj[k] as int;
    assert di == dj;
    NatToStringRoundTrip(i);
    NatToStringRoundTrip(j);
  }

  /** The record pushed on iteration `i`. */
  function MakeHolder(chain: Chain, address: JsString, i: nat): (h: Holder)
    ensures h.address == HolderAddress(chain, address, i)
    ensures h.percentage == HolderPercentage(address, i)
    ensures 1 <= h.percentage <= 15
    ensures IsDigits(h.balance) && DigitsValue(h.balance) == h.percentage * 1000000
    ensures h.isContract <==> i == ContractIndex
    ensures h.isCreator <==> i == CreatorIndex
  {
    var p := HolderPercentage(address, i);
    NatToStringRoundTrip(p * 1000000);
    Holder(HolderAddress(chain, address, i), NatToString(p * 1000000), p, i == ContractIndex, i == CreatorIndex)
  }

  /** The table the loop builds: holder `i` at index `i`. */
  function HolderTable(chain: Chain, address: JsString): (hs: seq<Holder>)
    ensures |hs| == HolderCount
  {
    seq(HolderCount, i requires 0 <= i < HolderCount => MakeHolder(chain, address, i))
  }

  /** `totalTop10` as the loop accumulates it. */
  function SumPercentages(hs: seq<Holder>): int {
    if |hs| == 0 then 0 else SumPercentages(hs[..|hs| - 1]) + hs[|hs| - 1].percentage
  }

  /** Every share in `[lo, hi]` bounds the sum by `n*lo` and `n*hi`. */
  lemma {:induction false} SumPercentagesBounds(hs: seq<Holder>, lo: int, hi: int)
    requires forall i :: 0 <= i < |hs| ==> lo <= hs[i].percentage <= hi
    ensures |hs| * lo <= SumPercentages(hs) <= |hs| * hi
  {
    if |hs| > 0 {
      var init := hs[..|hs| - 1];
      assert forall i :: 0 <= i < |init| ==> init[i] == hs[i];
      SumPercentagesBounds(init, lo, hi);
      assert |hs| * lo == |init| * lo + lo && |hs| * hi == |init| * hi + hi;
    }
  }

  /** Index of the first holder flagged as creator, or `|hs|`: the search
      `holders.find(h => h.isCreator)` performs. */
  function FirstCreator(hs: seq<Holder>): (k: nat)
    ensures k <= |hs|
    ensures forall j :: 0 <= j < k ==> !hs[j].isCreator
    ensures k < |hs| ==> hs[k].isCreator
  {
    if |hs| == 0 then 0
    else if hs[0].isCreator then 0
    else 1 + FirstCreator(hs[1..])
  }

  /** `holders.find(h => h.isCreator)?.percentage || 0` */
  function CreatorShare(hs: seq<Holder>): int {
    var k := FirstCreator(hs);
    if k < |hs| then hs[k].percentage else 0
  }

  /** `getDeterministicScore(address, 'gini', 30, 90) / 100`, as an exact
      rational. */
  function Gini(address: JsString): (g: real)
    ensures 0.3 <= g <= 0.9
  {
    Score(address, "gini", 30, 90) as real / 100.0
  }

  /** `fetchHolders(chain, address)`; the Gini figure is kept as an exact
      rational. */
  function FetchHolders(chain: Chain, address: JsString): (h: HolderAnalysis)
    ensures |h.holders| == HolderCount
    ensures forall i :: 0 <= i < HolderCount ==> h.holders[i] == MakeHolder(chain, address, i)
    ensures h.top10Percentage == SumPercentages(h.holders)
    ensures 10 <= h.top10Percentage <= 150
    ensures h.creatorShare == h.holders[CreatorIndex].percentage
    ensures !h.singleWalletDominance
    ensures h.giniCoefficient == Gini(address)
  {
    var holders := HolderTable(chain, address);
    TableFacts(chain, address);
    HolderAnalysis(
      SumPercentages(holders),
      Gini(address),
      holders[ContractIndex].percentage > DominanceThreshold,
      CreatorShare(holders),
      holders)
  }

  lemma TableFacts(chain: Chain, address: JsString)
    ensures var hs := HolderTable(chain, address);
      10 <= SumPercentages(hs) <= 150 && CreatorShare(hs) == hs[CreatorIndex].percentage
      && hs[ContractIndex].percentage <= DominanceThreshold
  {
    var hs := HolderTable(chain, address);
    SumPercentagesBounds(hs, 1, 15);
    CreatorIsFifth(chain, address);
  }

  /** Holder 5 is the first and only creator, so the `|| 0` fallback is
      never taken. */
  lemma CreatorIsFifth(chain: Chain, address: JsString)
    ensures var hs := HolderTable(chain, address);
      FirstCreator(hs) == CreatorIndex && CreatorShare(hs) == hs[CreatorIndex].percentage
  {
    var hs := HolderTable(chain, address);
    FirstCreatorIsUnique(hs, CreatorIndex);
  }

  lemma FirstCreatorIsUnique(hs: seq<Holder>, k: nat)
    requires k < |hs| && hs[k].isCreator
    requires forall j :: 0 <= j < k ==> !hs[j].isCreator
    ensures FirstCreator(hs) == k
  {
  }

  /** The loop of `fetchHolders`, building the table and the running total
      together. */
  method FetchHoldersLoop(chain: Chain, address: JsString) returns (holders: seq<Holder>, totalTop10: int)
    ensures holders == HolderTable(chain, address)
    ensures totalTop10 == SumPercentages(holders)
  {
    ghost var table := HolderTable(chain, address);
    holders := [];
    totalTop10 := 0;
    var i := 0;
    while i < HolderCount
      invariant 0 <= i <= HolderCount
      invariant holders == table[..i]
      invariant totalTop10 == SumPercentages(holders)
    {
      var h := MakeHolder(chain, address, i);
      assert h == table[i];
      SumSnoc(holders, h);
      PrefixSnoc(table, i);
      holders := holders + [h];
      totalTop10 := totalTop10 + h.percentage;
      i := i + 1;
    }
    assert table[..HolderCount] == table;
  }

  lemma SumSnoc(hs: seq<Holder>, h: Holder)
    ensures SumPercentages(hs + [h]) == SumPercentages(hs) + h.percentage
  {
    assert (hs + [h])[..|hs|] == hs;
  }

  /** Only the first holder is a contract and only the sixth a creator. */
  lemma FlagsAreSingletons(chain: Chain, address: JsString)
    ensures var hs := FetchHolders(chain, address).holders;
      (forall i :: 0 <= i < |hs| ==> (hs[i].isContract <==> i == 0))
      && (forall i :: 0 <= i < |hs| ==> (hs[i].isCreator <==> i == 5))
  {
  }

  /** The balance string encodes the share: reading its digits back and
      dividing by a million gives the percentage. */
  lemma BalanceEncodesPercentage(chain: Chain, address: JsString, i: nat)
    requires i < HolderCount
    ensures var h := FetchHolders(chain, address).holders[i];
      DigitsValue(h.balance) / 1000000 == h.percentage
  {
    var h := MakeHolder(chain, address, i);
    DivOfMultiple(h.percentage, 1000000);
  }

  lemma DivOfMultiple(q: int, m: int)
    requires m > 0
    ensures (q * m) / m == q
  {
    var x := q * m;
    var d := x / m;
    ModUnique(x, m, q, 0);
    assert (q - d) * m == 0;
    MulSign(q - d, m);
  }
}
