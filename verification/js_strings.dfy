/** JavaScript strings as the pipeline sees them: sequences of UTF-16 code
    units, with the handful of built-in string operations the pipeline uses
    (`trim`, `split`, `slice`, `includes`, number-to-string). */
module JsStrings {

  /** One UTF-16 code unit, the value `charCodeAt` returns. */
  type CodeUnit = c: int | 0 <= c < 0x1_0000

  /** A JavaScript string value. */
  type JsString = seq<CodeUnit>

  const Slash: CodeUnit := '/' as int
  const Question: CodeUnit := '?' as int

  /** UTF-16 encoding of one Unicode scalar value. */
  function Utf16(c: char): (r: seq<CodeUnit>)
    ensures 1 <= |r| <= 2
    ensures |r| == 1 <==> c as int < 0x1_0000
    ensures |r| == 1 ==> r[0] == c as int
  {
    if c as int < 0x1_0000 then [c as int]
    else
      var v := c as int - 0x1_0000;
      [0xD800 + v / 0x400, 0xDC00 + v % 0x400]
  }

  /** The JavaScript string a Dafny string literal denotes. */
  function Js(s: string): (r: JsString)
    ensures |r| >= |s|
  {
    if |s| == 0 then [] else Utf16(s[0]) + Js(s[1..])
  }

  /** Every character lies in the Basic Multilingual Plane, so each one is
      a single code unit. */
  predicate InBmp(s: string) {
    forall k :: 0 <= k < |s| ==> s[k] as int < 0x1_0000
  }

  /** One code unit per character: the UTF-16 encoding for text in the
      Basic Multilingual Plane (`UnitsAreUtf16`), which every fixed tag
      and label of the pipeline is. A character outside it would need two
      units and reads as U+FFFD here. */
  function Units(s: string): (r: JsString)
    ensures |r| == |s|
  {
    seq(|s|, k requires 0 <= k < |s| => if s[k] as int < 0x1_0000 then s[k] as int else 0xFFFD)
  }

  /** For BMP text the one-unit-per-character reading is the UTF-16
      encoding. */
  lemma {:induction false} UnitsAreUtf16(s: string)
    requires InBmp(s)
    ensures Units(s) == Js(s)
  {
    if |s| > 0 {
      assert InBmp(s[1..]);
      UnitsAreUtf16(s[1..]);
      assert Units(s) == [s[0] as int] + Units(s[1..]);
    }
  }

  // ---------------------------------------------------------------------
  // Number to string (`String(n)`, and `n.toFixed(1)` for integral n)
  // ---------------------------------------------------------------------

  function DigitChar(d: nat): (c: char)
    requires d < 10
    ensures '0' <= c <= '9'
  {
    ('0' as int + d) as char
  }

  predicate IsDigits(s: string) {
    forall i :: 0 <= i < |s| ==> '0' <= s[i] <= '9'
  }

  /** Decimal digits of a natural number, without leading zeros. */
  function NatToString(n: nat): (s: string)
    ensures |s| >= 1
    ensures IsDigits(s) && InBmp(s)
    ensures |s| > 1 ==> s[0] != '0'
  {
    if n < 10 then [DigitChar(n)] else NatToString(n / 10) + [DigitChar(n % 10)]
  }

  /** The value of a string of decimal digits. */
  function DigitsValue(s: string): nat
    requires IsDigits(s)
  {
    if |s| == 0 then 0 else 10 * DigitsValue(s[..|s| - 1]) + (s[|s| - 1] as int - '0' as int)
  }

  /** `String(n)` for an integral number. */
  function IntToString(n: int): string {
    if n < 0 then "-" + NatToString(-n) else NatToString(n)
  }

  /** Printing a natural number and reading it back gives the number. */
  lemma {:induction false} NatToStringRoundTrip(n: nat)
    ensures DigitsValue(NatToString(n)) == n
  {
    if n >= 10 {
      NatToStringRoundTrip(n / 10);
      var s := NatToString(n);
      assert s[..|s| - 1] == NatToString(n / 10);
    }
  }

  /** A number printed between two fixed texts can be read back from the
      characters between them. */
  lemma EmbeddedNumber(prefix: string, n: nat, suffix: string)
    ensures var e := prefix + NatToString(n) + suffix;
      |prefix| + |suffix| < |e| && e[..|prefix|] == prefix && e[|e| - |suffix|..] == suffix
      && IsDigits(e[|prefix|..|e| - |suffix|]) && DigitsValue(e[|prefix|..|e| - |suffix|]) == n
  {
    var d := NatToString(n);
    var e := prefix + d + suffix;
    assert e[|prefix|..|e| - |suffix|] == d;
    assert e[..|prefix|] == prefix;
    assert e[|e| - |suffix|..] == suffix;
    NatToStringRoundTrip(n);
  }

  // ---------------------------------------------------------------------
  // String.prototype.trim
  // ---------------------------------------------------------------------

  /** The code units ECMAScript counts as WhiteSpace or LineTerminator. */
  predicate IsWhiteSpace(c: CodeUnit) {
    c == 0x09 || c == 0x0A || c == 0x0B || c == 0x0C || c == 0x0D || c == 0x20
    || c == 0xA0 || c == 0x1680 || (0x2000 <= c <= 0x200A) || c == 0x2028
    || c == 0x2029 || c == 0x202F || c == 0x205F || c == 0x3000 || c == 0xFEFF
  }

  /** Length of the longest all-white-space prefix. */
  function LeadingSpace(s: JsString): (n: nat)
    ensures n <= |s|
    ensures forall k :: 0 <= k < n ==> IsWhiteSpace(s[k])
    ensures n < |s| ==> !IsWhiteSpace(s[n])
  {
    if |s| > 0 && IsWhiteSpace(s[0]) then 1 + LeadingSpace(s[1..]) else 0
  }

  /** Length of the longest all-white-space suffix. */
  function TrailingSpace(s: JsString): (n: nat)
    ensures n <= |s|
    ensures forall k :: |s| - n <= k < |s| ==> IsWhiteSpace(s[k])
    ensures n < |s| ==> !IsWhiteSpace(s[|s| - n - 1])
  {
    if |s| > 0 && IsWhiteSpace(s[|s| - 1]) then 1 + TrailingSpace(s[..|s| - 1]) else 0
  }

  /** `s.trim()`: drop leading and trailing white space. */
  function Trim(s: JsString): (r: JsString)
    ensures LeadingSpace(s) + |r| <= |s|
    ensures r == s[LeadingSpace(s)..LeadingSpace(s) + |r|]
    ensures forall k :: 0 <= k < LeadingSpace(s) ==> IsWhiteSpace(s[k])
    ensures forall k :: LeadingSpace(s) + |r| <= k < |s| ==> IsWhiteSpace(s[k])
    ensures |r| > 0 ==> !IsWhiteSpace(r[0]) && !IsWhiteSpace(r[|r| - 1])
  {
    var rest := s[LeadingSpace(s)..];
    rest[..|rest| - TrailingSpace(rest)]
  }

  /** Trimming twice is trimming once. */
  lemma TrimIdempotent(s: JsString)
    ensures Trim(Trim(s)) == Trim(s)
  {
    var t := Trim(s);
    if |t| > 0 {
      assert LeadingSpace(t) == 0;
      assert TrailingSpace(t) == 0;
    } 
  }

  // ---------------------------------------------------------------------
  // String.prototype.split with a one-unit separator
  // ---------------------------------------------------------------------

  /** `s` is its longest proper prefix followed by its last element. */
  lemma LastSplit<T>(s: seq<T>)
    requires |s| > 0
    ensures s == s[..|s| - 1] + [s[|s| - 1]]
  {
  }

  /** Growing a prefix by one element. */
  lemma PrefixSnoc<T>(s: seq<T>, i: nat)
    requires i < |s|
    ensures s[..i + 1] == s[..i] + [s[i]]
  {
  }

  lemma SnocParts<T>(xs: seq<T>, y: T)
    ensures (xs + [y])[..|xs|] == xs && (xs + [y])[|xs|] == y
  {
  }

  lemma ReplaceLastParts<T>(xs: seq<T>, y: T)
    requires |xs| > 0
    ensures var r := xs[..|xs| - 1] + [y];
      |r| == |xs| && r[..|xs| - 1] == xs[..|xs| - 1] && r[|xs| - 1] == y
      && (|xs| > 1 ==> r[0] == xs[0])
  {
  }

  lemma MembershipOfSnoc(s: JsString, c: CodeUnit)
    requires |s| > 0
    ensures c in s <==> c in s[..|s| - 1] || s[|s| - 1] == c
  {
    LastSplit(s);
  }

  /** `s.split(c)`: the maximal `c`-free pieces of `s`, in order; splitting
      the empty string gives one empty piece. Defined by reading `s` one code
      unit at a time: a separator opens a new, empty piece, any other unit
      extends the current last piece. */
  function Split(s: JsString, c: CodeUnit): (parts: seq<JsString>)
    ensures |parts| >= 1
    ensures |parts| == 1 <==> c !in s
    ensures c !in s ==> parts == [s]
  {
    if |s| == 0 then [[]]
    else
      var prev := Split(s[..|s| - 1], c);
      var x := s[|s| - 1];
      MembershipOfSnoc(s, c);
      if x == c then prev + [[]]
      else
        LastSplit(s);
        prev[..|prev| - 1] + [prev[|prev| - 1] + [x]]
  }

  /** Concatenation of `parts` with `c` between consecutive parts. */
  function Join(parts: seq<JsString>, c: CodeUnit): JsString
    requires |parts| >= 1
  {
    if |parts| == 1 then parts[0] else Join(parts[..|parts| - 1], c) + [c] + parts[|parts| - 1]
  }

  lemma JoinSnoc(parts: seq<JsString>, c: CodeUnit, y: JsString)
    requires |parts| >= 1
    ensures Join(parts + [y], c) == Join(parts, c) + [c] + y
  {
    SnocParts(parts, y);
  }

  lemma JoinExtendLast(parts: seq<JsString>, c: CodeUnit, x: CodeUnit)
    requires |parts| >= 1
    ensures Join(parts[..|parts| - 1] + [parts[|parts| - 1] + [x]], c) == Join(parts, c) + [x]
  {
    ReplaceLastParts(parts, parts[|parts| - 1] + [x]);
  }

  /** Joining the pieces with the separator gives back the string. */
  lemma {:induction false} SplitJoin(s: JsString, c: CodeUnit)
    ensures Join(Split(s, c), c) == s
  {
    if |s| > 0 {
      var init := s[..|s| - 1];
      var x := s[|s| - 1];
      SplitJoin(init, c);
      if x == c {
        JoinSnoc(Split(init, c), c, []);
      } else {
        JoinExtendLast(Split(init, c), c, x);
      }
      LastSplit(s);
    }
  }

  /** No piece of a split contains the separator. */
  lemma {:induction false} SplitPiecesFree(s: JsString, c: CodeUnit)
    ensures forall j :: 0 <= j < |Split(s, c)| ==> c !in Split(s, c)[j]
  {
    if |s| > 0 {
      var init := s[..|s| - 1];
      var prev := Split(init, c);
      var x := s[|s| - 1];
      SplitPiecesFree(init, c);
      if x == c {
        SnocParts(prev, []);
      } else {
        var last := prev[|prev| - 1];
        ReplaceLastParts(prev, last + [x]);
        assert c !in last + [x] by { LastSplit(last + [x]); }
      }
    }
  }

  /** A string ending in the separator splits into the split of the rest
      followed by one empty piece. */
  lemma SplitTrailingSeparator(s: JsString, c: CodeUnit)
    requires |s| > 0 && s[|s| - 1] == c
    ensures Split(s, c) == Split(s[..|s| - 1], c) + [[]]
  {
  }

  /** Start of the last `c`-free run of `s`: just past the last `c`, or 0. */
  function LastSegmentStart(s: JsString, c: CodeUnit): (k: nat)
    ensures k <= |s|
    ensures c !in s[k..]
    ensures k == 0 || s[k - 1] == c
  {
    if |s| == 0 then 0
    else if s[|s| - 1] == c then |s|
    else
      var k := LastSegmentStart(s[..|s| - 1], c);
      SuffixSnoc(s, k);
      k
  }

  lemma SuffixSnoc(s: JsString, k: nat)
    requires k < |s|
    ensures s[k..] == s[..|s| - 1][k..] + [s[|s| - 1]]
  {
  }

  /** Everything after the last `c` (all of `s` when there is none). */
  function LastSegment(s: JsString, c: CodeUnit): JsString {
    s[LastSegmentStart(s, c)..]
  }

  /** The last piece of a split is the text after the last separator. */
  lemma {:induction false} SplitLast(s: JsString, c: CodeUnit)
    ensures var parts := Split(s, c); parts[|parts| - 1] == LastSegment(s, c)
  {
    if |s| > 0 {
      var init := s[..|s| - 1];
      var prev := Split(init, c);
      var x := s[|s| - 1];
      SplitLast(init, c);
      if x == c {
        SnocParts(prev, []);
      } else {
        ReplaceLastParts(prev, prev[|prev| - 1] + [x]);
        SuffixSnoc(s, LastSegmentStart(init, c));
      }
    }
  }

  /** End of the first `c`-free run of `s`: the first `c`, or `|s|`. */
  function FirstSegmentEnd(s: JsString, c: CodeUnit): (k: nat)
    ensures k <= |s|
    ensures c !in s[..k]
    ensures k == |s| || s[k] == c
  {
    if |s| == 0 || s[0] == c then 0
    else
      var k := FirstSegmentEnd(s[1..], c);
      assert s[..k + 1] == [s[0]] + s[1..][..k];
      k + 1
  }

  /** Everything before the first `c` (all of `s` when there is none). */
  function FirstSegment(s: JsString, c: CodeUnit): JsString {
    s[..FirstSegmentEnd(s, c)]
  }

  lemma FirstSegmentIsPrefix(s: JsString, c: CodeUnit)
    ensures FirstSegment(s, c) <= s
  {
  }

  lemma PrefixTransitive(a: JsString, b: JsString, c: JsString)
    requires a <= b && b <= c
    ensures a <= c
  {
  }

  /** Dropping the last unit keeps every suffix a prefix of the original suffix. */
  lemma DropLastPrefix(s: JsString, k: nat)
    requires k < |s|
    ensures s[..|s| - 1][k..] <= s[k..]
  {
  }

  /** A `c`-free prefix followed by `c` or the end is the first segment. */
  lemma FirstSegmentUnique(s: JsString, c: CodeUnit, k: nat)
    requires k <= |s| && c !in s[..k] && (k == |s| || s[k] == c)
    ensures k == FirstSegmentEnd(s, c)
  {
  }

  /** The first piece of a split is the text before the first separator. */
  lemma {:induction false} SplitFirst(s: JsString, c: CodeUnit)
    ensures Split(s, c)[0] == FirstSegment(s, c)
  {
    if |s| > 0 {
      var init := s[..|s| - 1];
      var prev := Split(init, c);
      var x := s[|s| - 1];
      SplitFirst(init, c);
      var k := FirstSegmentEnd(init, c);
      MembershipOfSnoc(s, c);
      if c in init {
        assert init[..k] == s[..k];
        FirstSegmentUnique(s, c, k);
        if x == c {
          SnocParts(prev, []);
        } else {
          ReplaceLastParts(prev, prev[|prev| - 1] + [x]);
        }
      } else if x == c {
        assert init[..k] == s[..k];
        FirstSegmentUnique(s, c, k);
        SnocParts(prev, []);
      } else {
        assert s[..|s|] == s;
        FirstSegmentUnique(s, c, |s|);
        LastSplit(s);
      }
    }
  }

  // ---------------------------------------------------------------------
  // String.prototype.slice and friends
  // ---------------------------------------------------------------------

  /** How `slice` turns a possibly negative position into an index. */
  function SliceIndex(len: nat, x: int): (k: nat)
    ensures k <= len
    ensures 0 <= x <= len ==> k == x
    ensures x > len ==> k == len
    ensures x < 0 ==> k == (if len + x < 0 then 0 else len + x)
  {
    if x < 0 then (if len + x < 0 then 0 else len + x)
    else if x > len then len else x
  }

  /** `s.slice(start, end)`. */
  function Slice(s: JsString, start: int, end: int): (r: JsString)
    ensures |r| <= |s|
  {
    var b := SliceIndex(|s|, start);
    var e := SliceIndex(|s|, end);
    if b >= e then [] else s[b..e]
  }

  /** A slice is the piece of `s` from the normalised start up to the
      normalised end, and empty when the end does not lie after the start. */
  lemma SliceIsInfix(s: JsString, start: int, end: int)
    ensures var b := SliceIndex(|s|, start); var r := Slice(s, start, end);
      b + |r| <= |s| && r == s[b..b + |r|]
    ensures var b, e := SliceIndex(|s|, start), SliceIndex(|s|, end);
      |Slice(s, start, end)| == (if b <= e then e - b else 0)
  {
  }

  /** `s.slice(start)`. */
  function SliceFrom(s: JsString, start: int): (r: JsString)
    ensures |r| <= |s|
  {
    s[SliceIndex(|s|, start)..]
  }

  /** `s.slice(start)` is the suffix of `s` from the normalised start; for a
      negative start that is the last `-start` units, or all of `s` when it
      is shorter. */
  lemma SliceFromIsSuffix(s: JsString, start: int)
    ensures var r := SliceFrom(s, start); r == s[|s| - |r|..]
    ensures |SliceFrom(s, start)| == |s| - SliceIndex(|s|, start)
    ensures start < 0 ==> |SliceFrom(s, start)| == (if |s| + start < 0 then |s| else -start)
  {
  }

  /** ASCII letters folded to lower case; every other unit unchanged. */
  function AsciiLower(c: CodeUnit): CodeUnit {
    if 'A' as int <= c <= 'Z' as int then c + 32 else c
  }
}
