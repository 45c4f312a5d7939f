/** The deterministic scoring primitive every pipeline stage draws its
    numbers from (`getDeterministicScore`): a 31-multiplier string hash over
    the UTF-16 code units of `address + seed`, folded in 32-bit signed
    arithmetic, reduced into `[min, max]`. */
module MarketService {
  import opened Wrappers
  import opened JsStrings

  const TwoTo31: int := 0x8000_0000
  const TwoTo32: int := 0x1_0000_0000

  /** The default range of `getDeterministicScore`. */
  const DefaultMin: int := 40
  const DefaultMax: int := 99

  /** ECMAScript ToInt32: the signed 32-bit integer congruent to `x`
      modulo 2^32. It is what `<<` and `&` apply to their operands. */
  function ToInt32(x: int): (r: int)
    ensures -TwoTo31 <= r < TwoTo31
  {
    (x + TwoTo31) % TwoTo32 - TwoTo31
  }

  /** ToInt32 only removes a multiple of 2^32. */
  lemma ToInt32Wraps(x: int)
    ensures (x - ToInt32(x)) % TwoTo32 == 0
  {
  }

  /** Numbers congruent modulo 2^32 have the same ToInt32. */
  lemma ToInt32Congruent(x: int, y: int, q: int)
    requires x == y + q * TwoTo32
    ensures ToInt32(x) == ToInt32(y)
  {
    var a := x + TwoTo31;
    var b := y + TwoTo31;
    assert a == b + q * TwoTo32;
    ModShift(b, q, TwoTo32);
  }

  lemma ModShift(b: int, q: int, m: int)
    requires m > 0
    ensures (b + q * m) % m == b % m
  {
    var r := b % m;
    var d := b / m;
    assert b == d * m + r;
    assert b + q * m == (d + q) * m + r by {
      assert (d + q) * m == d * m + q * m;
    }
    ModUnique(b + q * m, m, d + q, r);
  }

  lemma MulSign(a: int, m: int)
    requires m > 0
    ensures a >= 1 ==> a * m >= m
    ensures a <= -1 ==> a * m <= -m
  {
  }

  /** Euclidean division has one remainder. */
  lemma ModUnique(x: int, m: int, k: int, r: int)
    requires m > 0 && 0 <= r < m && x == k * m + r
    ensures x % m == r
  {
    var k2 := x / m;
    var r2 := x % m;
    assert x == k2 * m + r2;
    assert (k - k2) * m == r2 - r by {
      assert (k - k2) * m == k * m - k2 * m;
    }
    MulSign(k - k2, m);
  }

  /** One iteration of the source loop, literally:
      `hash = ((hash << 5) - hash) + char; hash = hash & hash`. */
  function HashStep(hash: int, code: CodeUnit): int {
    var shifted := ToInt32(ToInt32(hash) * 32);
    ToInt32((shifted - hash) + code)
  }

  /** The shift-and-subtract step is the 32-bit wrap of `31 * hash + code`. */
  lemma HashStepIsMultiply(hash: int, code: CodeUnit)
    requires -TwoTo31 <= hash < TwoTo31
    ensures HashStep(hash, code) == ToInt32(31 * hash + code)
  {
    ModUnique(hash + TwoTo31, TwoTo32, 0, hash + TwoTo31);
    assert ToInt32(hash) == hash;
    var shifted := ToInt32(hash * 32);
    ToInt32Wraps(hash * 32);
    var q := (hash * 32 - shifted) / TwoTo32;
    assert hash * 32 - shifted == q * TwoTo32;
    assert 31 * hash + code == (shifted - hash + code) + q * TwoTo32;
    ToInt32Congruent(31 * hash + code, shifted - hash + code, q);
  }

  /** The accumulator after folding every code unit of `s`, starting at 0. */
  function Hash(s: JsString): (h: int)
    ensures -TwoTo31 <= h < TwoTo31
  {
    if |s| == 0 then 0 else HashStep(Hash(s[..|s| - 1]), s[|s| - 1])
  }

  /** The polynomial `s[0]*31^(n-1) + ... + s[n-1]` in unbounded integers. */
  function Polynomial(s: JsString): int {
    if |s| == 0 then 0 else 31 * Polynomial(s[..|s| - 1]) + s[|s| - 1]
  }

  /** The folded hash is the polynomial hash reduced to 32 signed bits. */
  lemma {:induction false} HashIsPolynomialMod32(s: JsString)
    ensures Hash(s) == ToInt32(Polynomial(s))
  {
    if |s| > 0 {
      var init := s[..|s| - 1];
      var c := s[|s| - 1];
      HashIsPolynomialMod32(init);
      var h := Hash(init);
      var p := Polynomial(init);
      HashStepIsMultiply(h, c);
      ToInt32Wraps(p);
      var q := (p - h) / TwoTo32;
      assert p - h == q * TwoTo32;
      ToInt32Congruent(31 * p + c, 31 * h + c, 31 * q);
    }
  }

  /** Hashing `a + b` continues the fold of `a` over `b`. */
  function HashFrom(h: int, s: JsString): int
  {
    if |s| == 0 then h else HashStep(HashFrom(h, s[..|s| - 1]), s[|s| - 1])
  }

  lemma {:induction false} HashAppend(a: JsString, b: JsString)
    ensures Hash(a + b) == HashFrom(Hash(a), b)
  {
    if |b| > 0 {
      HashAppend(a, b[..|b| - 1]);
      DropLastOfAppend(a, b);
      var s := a + b;
      var n := |s|;
      var init := a + b[..|b| - 1];
      var c := b[|b| - 1];
      assert Hash(s) == HashStep(Hash(s[..n - 1]), s[n - 1]);
      assert Hash(s) == HashStep(Hash(init), c);
      assert HashFrom(Hash(a), b) == HashStep(HashFrom(Hash(a), b[..|b| - 1]), c);
    } else {
      assert a + b == a;
    }
  }

  lemma DropLastOfAppend(a: JsString, b: JsString)
    requires |b| > 0
    ensures (a + b)[..|a + b| - 1] == a + b[..|b| - 1]
    ensures (a + b)[|a + b| - 1] == b[|b| - 1]
  {
  }

  /** The loop of `getDeterministicScore`, over the code units of `s`. */
  method ComputeHash(s: JsString) returns (hash: int)
    ensures hash == Hash(s)
    ensures hash == ToInt32(Polynomial(s))
  {
    hash := 0;
    var i := 0;
    while i < |s|
      invariant 0 <= i <= |s|
      invariant hash == Hash(s[..i])
    {
      var code := s[i];
      hash := ToInt32(ToInt32(hash) * 32) - hash + code;
      hash := ToInt32(hash);
      assert s[..i + 1][..i] == s[..i];
      i := i + 1;
    }
    assert s[..i] == s;
    HashIsPolynomialMod32(s);
  }

  function Abs(x: int): nat {
    if x < 0 then -x else x
  }

  /** `getDeterministicScore(address, seed, min, max)`. The result is None
      exactly where JavaScript yields `NaN`: `max - min + 1 == 0`, a
      remainder by zero. */
  function DeterministicScore(address: JsString, seed: JsString, min: int, max: int): (r: Option<int>)
    ensures r.None? <==> max - min + 1 == 0
    ensures min <= max ==> r.Some? && min <= r.value <= max
    ensures r.Some? ==> r.value - min < Abs(max - min + 1)
    ensures r.Some? ==> r.value - min == Abs(Hash(address + seed)) % (max - min + 1)
  {
    var hash := Hash(address + seed);
    var span := max - min + 1;
    if span == 0 then None else Some(min + Abs(hash) % span)
  }

  /** `getDeterministicScore` with its default range `[40, 99]`. */
  function DefaultScore(address: JsString, seed: JsString): (r: int)
    ensures DefaultMin <= r <= DefaultMax
  {
    DeterministicScore(address, seed, DefaultMin, DefaultMax).value
  }

  /** The score every stage draws: a fixed ASCII tag as seed and always a
      non-empty range. */
  function Score(address: JsString, seed: string, min: int, max: int): (r: int)
    requires min <= max
    ensures min <= r <= max
  {
    min + Abs(HashFrom(Hash(address), Units(seed))) % (max - min + 1)
  }

  /** `Score` is `getDeterministicScore` on the tag's code units. */
  lemma ScoreIsDeterministicScore(address: JsString, seed: string, min: int, max: int)
    requires min <= max && InBmp(seed)
    ensures DeterministicScore(address, Units(seed), min, max) == Some(Score(address, seed, min, max))
    ensures DeterministicScore(address, Js(seed), min, max) == Some(Score(address, seed, min, max))
  {
    UnitsAreUtf16(seed);
    HashAppend(address, Units(seed));
  }

  /** Address and seed matter only through their concatenation. */
  lemma ScoreDependsOnConcatenation(a1: JsString, s1: JsString, a2: JsString, s2: JsString, min: int, max: int)
    requires a1 + s1 == a2 + s2
    ensures DeterministicScore(a1, s1, min, max) == DeterministicScore(a2, s2, min, max)
  {
  }

  /** An empty key hashes to 0, so the score is the bottom of the range. */
  lemma EmptyKeyScoresMin(min: int, max: int)
    requires min <= max
    ensures DeterministicScore([], [], min, max) == Some(min)
  {
    var empty: JsString := [];
    assert empty + empty == empty;
    assert Hash(empty) == 0;
    ModUnique(0, max - min + 1, 0, 0);
  }

  /** A one-point range always yields that point. */
  lemma DegenerateRange(address: JsString, seed: JsString, v: int)
    ensures DeterministicScore(address, seed, v, v) == Some(v)
  {
  }
}
