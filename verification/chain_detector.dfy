/** Classifying a raw identifier into a chain, and extracting the bare
    identifier from a pasted URL (`chainDetector.ts`). */
module ChainDetector {
  import opened JsStrings
  import opened SignalTypes

  predicate IsHexDigit(c: CodeUnit) {
    ('0' as int <= c <= '9' as int) || ('a' as int <= c <= 'f' as int) || ('A' as int <= c <= 'F' as int)
  }

  /** The base58 alphabet: digits and letters without `0`, `O`, `I`, `l`. */
  predicate IsBase58Digit(c: CodeUnit) {
    ('1' as int <= c <= '9' as int) || ('A' as int <= c <= 'H' as int) || ('J' as int <= c <= 'N' as int)
    || ('P' as int <= c <= 'Z' as int) || ('a' as int <= c <= 'k' as int) || ('m' as int <= c <= 'z' as int)
  }

  /** `/^0x[a-fA-F0-9]{40}$/` */
  predicate IsEvmAddress(s: JsString) {
    |s| == 42 && s[0] == '0' as int && s[1] == 'x' as int
    && forall k :: 2 <= k < 42 ==> IsHexDigit(s[k])
  }

  /** `/^[1-9A-HJ-NP-Za-km-z]{32,44}$/` */
  predicate IsBase58Address(s: JsString) {
    32 <= |s| <= 44 && forall k :: 0 <= k < |s| ==> IsBase58Digit(s[k])
  }

  /** `detectChain`: the EVM shape first, then the base58 shape, otherwise
      the Ethereum fallback. */
  function DetectChain(input: JsString): (c: Chain)
    ensures c != Base
    ensures IsEvmAddress(input) ==> c == Ethereum
    ensures c == Solana <==> IsBase58Address(input)
  {
    if IsEvmAddress(input) then Ethereum
    else if IsBase58Address(input) then Solana
    else Ethereum
  }

  /** No string has both shapes: an EVM address starts with `0`, which is
      not a base58 digit. */
  lemma ShapesDisjoint(s: JsString)
    ensures !(IsEvmAddress(s) && IsBase58Address(s))
  {
    if IsEvmAddress(s) {
      assert !IsBase58Digit(s[0]);
    }
  }

  /** The two checks in the other order classify every input the same way. */
  function DetectChainBase58First(input: JsString): Chain {
    if IsBase58Address(input) then Solana
    else if IsEvmAddress(input) then Ethereum
    else Ethereum
  }

  lemma CheckOrderIrrelevant(input: JsString)
    ensures DetectChainBase58First(input) == DetectChain(input)
  {
    ShapesDisjoint(input);
  }

  /** An input carrying a `/`, a `?` or white space is neither shape, so it
      falls back to Ethereum; in particular a URL wrapping a Solana address. */
  lemma DecoratedInputIsEthereum(input: JsString, k: nat)
    requires k < |input|
    requires input[k] == Slash || input[k] == Question || IsWhiteSpace(input[k])
    ensures DetectChain(input) == Ethereum
  {
    assert !IsBase58Digit(input[k]);
    if IsEvmAddress(input) {
    }
  }

  /** `normalizeIdentifier`: trim; if a `/` is present keep the last path
      segment, or the one before it when the last is empty; then cut at the
      first `?`. */
  function NormalizeIdentifier(input: JsString): (r: JsString)
    ensures Slash !in r && Question !in r
  {
    var segment := KeptSegment(Trim(input));
    SplitPiecesFree(segment, Question);
    SplitFirst(segment, Question);
    Split(segment, Question)[0]
  }

  /** The segment `normalizeIdentifier` keeps of the trimmed input: the
      whole input without a `/`; otherwise the last `/`-separated part, or
      the one before it when the last is empty. */
  function KeptSegment(trimmed: JsString): (segment: JsString)
    ensures Slash !in segment
  {
    SplitPiecesFree(trimmed, Slash);
    if Slash in trimmed then
      var parts := Split(trimmed, Slash);
      var last := parts[|parts| - 1];
      if last != [] then last else parts[|parts| - 2]
    else trimmed
  }

  /** The path segment `normalizeIdentifier` keeps, stated without
      `split`: the text after the last `/`, or, when `t` ends in `/`, after
      the last `/` before that one. */
  function PathSegment(t: JsString): JsString {
    if Slash !in t then t
    else if t[|t| - 1] != Slash then LastSegment(t, Slash)
    else LastSegment(t[..|t| - 1], Slash)
  }

  /** The same rewrite stated without `split`: the path segment of the
      trimmed input, up to its first `?`. */
  function NormalizeByPositions(input: JsString): JsString {
    FirstSegment(PathSegment(Trim(input)), Question)
  }

  /** The `split`-based choice of segment agrees with `PathSegment`. */
  lemma KeptSegmentIsPathSegment(t: JsString)
    ensures KeptSegment(t) == PathSegment(t)
  {
    if Slash in t {
      if t[|t| - 1] == Slash {
        TrailingSlashPart(t);
      } else {
        SplitLast(t, Slash);
        assert LastSegmentStart(t, Slash) < |t|;
      }
    }
  }

  lemma TrailingSlashPart(t: JsString)
    requires |t| > 0 && t[|t| - 1] == Slash
    ensures var parts := Split(t, Slash);
      |parts| >= 2 && parts[|parts| - 1] == [] && parts[|parts| - 2] == LastSegment(t[..|t| - 1], Slash)
  {
    var init := t[..|t| - 1];
    SplitTrailingSeparator(t, Slash);
    SplitLast(init, Slash);
  }

  lemma NormalizeMatchesPositions(input: JsString)
    ensures NormalizeIdentifier(input) == NormalizeByPositions(input)
  {
    var t := Trim(input);
    KeptSegmentIsPathSegment(t);
    SplitFirst(PathSegment(t), Question);
  }

  /** Where the kept path segment starts inside `t`. */
  lemma PathSegmentInfix(t: JsString) returns (i: nat)
    ensures i <= |t| && PathSegment(t) <= t[i..]
  {
    if Slash !in t {
      i := 0;
      assert t[0..] == t;
    } else if t[|t| - 1] != Slash {
      i := LastSegmentStart(t, Slash);
    } else {
      var init := t[..|t| - 1];
      i := LastSegmentStart(init, Slash);
      DropLastPrefix(t, i);
    }
  }

  /** An input with no `/` and no `?` is only trimmed. */
  lemma PlainInputOnlyTrimmed(input: JsString)
    requires Slash !in Trim(input) && Question !in Trim(input)
    ensures NormalizeIdentifier(input) == Trim(input)
  {
  }

  /** The result is a contiguous piece of the trimmed input. */
  lemma NormalizedIsInfix(input: JsString)
    ensures exists i :: 0 <= i <= |Trim(input)| && NormalizeIdentifier(input) <= Trim(input)[i..]
  {
    NormalizeMatchesPositions(input);
    var t := Trim(input);
    var segment := PathSegment(t);
    var i := PathSegmentInfix(t);
    FirstSegmentIsPrefix(segment, Question);
    PrefixTransitive(FirstSegment(segment, Question), segment, t[i..]);
  }
}
