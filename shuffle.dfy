/** The deterministic question shuffle: a 32-bit string hash seeds a linear
    congruential generator, which drives a Fisher-Yates shuffle of a copy
    of the input. A JavaScript string is a sequence of UTF-16 code units,
    as `charCodeAt` reads it. All arithmetic below is exact: every
    intermediate value `hashString` and `seededRandom` compute stays
    below 2^53. */
module Shuffle {
  newtype CodeUnit = x: int | 0 <= x < 0x1_0000

  type JsString = seq<CodeUnit>

  const TwoTo31: int := 0x8000_0000
  const TwoTo32: int := 0x1_0000_0000

  /** ECMAScript `ToInt32`: the signed 32-bit integer congruent to `x`
      modulo 2^32. */
  function ToInt32(x: int): (r: int)
    ensures -TwoTo31 <= r < TwoTo31
  {
    (x + TwoTo31) % TwoTo32 - TwoTo31
  }

  /** `ToInt32` leaves signed 32-bit values alone. */
  lemma ToInt32Identity(x: int)
    requires -TwoTo31 <= x < TwoTo31
    ensures ToInt32(x) == x
  {
  }

  /** `ToInt32` only sees `x` modulo 2^32. */
  lemma ToInt32Periodic(x: int, k: int)
    ensures ToInt32(x + k * TwoTo32) == ToInt32(x)
  {
    var y := x + TwoTo31;
    var q, r := y / TwoTo32, y % TwoTo32;
    assert y == q * TwoTo32 + r && 0 <= r < TwoTo32;
    assert y + k * TwoTo32 == (q + k) * TwoTo32 + r;
    DivModUnique(y + k * TwoTo32, q + k, r);
  }

  /** The remainder of `n` by 2^32 is the `r` of any decomposition
      `n == q * 2^32 + r` with `0 <= r < 2^32`. */
  lemma DivModUnique(n: int, q: int, r: int)
    requires n == q * TwoTo32 + r && 0 <= r < TwoTo32
    ensures n % TwoTo32 == r
  {
  }

  /** `x << 5`: the left operand is taken as a signed 32-bit integer and
      the shifted value is cut back to 32 bits. */
  function ShiftLeft5(x: int): int
  {
    ToInt32(ToInt32(x) * 32)
  }

  /** One step of the hashing loop as written: `hash = ((hash << 5) - hash)
      + char` with `char` the code unit, then `hash = hash & hash`, where `x & x` is `ToInt32(x)`. */
  function HashStep(hash: int, code: CodeUnit): int
  {
    var next := ShiftLeft5(hash) - hash + code as int;
    ToInt32(next)
  }

  /** The step is the signed 32-bit wrap of `31 * hash + code`. */
  lemma HashStepIsWrap(hash: int, code: CodeUnit)
    requires -TwoTo31 <= hash < TwoTo31
    ensures HashStep(hash, code) == ToInt32(31 * hash + code as int)
  {
    ToInt32Identity(hash);
    var y := hash * 32 + TwoTo31;
    var q := y / TwoTo32;
    assert ShiftLeft5(hash) == hash * 32 - q * TwoTo32;
    assert ShiftLeft5(hash) - hash + code as int == (31 * hash + code as int) + (-q) * TwoTo32;
    ToInt32Periodic(31 * hash + code as int, -q);
  }

  /** The value of `hash` after the loop has read all of `s`. */
  function HashFold(s: JsString): (h: int)
    ensures -TwoTo31 <= h < TwoTo31
  {
    if s == [] then 0 else HashStep(HashFold(s[..|s| - 1]), s[|s| - 1])
  }

  /** The polynomial hash `s[0] * 31^(n-1) + ... + s[n-1]`, unbounded. */
  function Polynomial(s: JsString): int
  {
    if s == [] then 0 else 31 * Polynomial(s[..|s| - 1]) + s[|s| - 1] as int
  }

  /** The loop computes the polynomial hash modulo 2^32, read as a signed
      32-bit integer. */
  lemma {:induction false} HashFoldIsPolynomial(s: JsString)
    ensures HashFold(s) == ToInt32(Polynomial(s))
  {
    if s != [] {
      var init, c := s[..|s| - 1], s[|s| - 1];
      HashFoldIsPolynomial(init);
      var p := Polynomial(init);
      var h := HashFold(init);
      HashStepIsWrap(h, c);
      var y := p + TwoTo31;
      var q := y / TwoTo32;
      assert h == p - q * TwoTo32;
      assert 31 * h + c as int == 31 * p + c as int + (-31 * q) * TwoTo32;
      ToInt32Periodic(31 * p + c as int, -31 * q);
    }
  }

  function AbsInt(x: int): int
  {
    if x < 0 then -x else x
  }

  /** What `hashString` returns: the magnitude of the folded hash. */
  function StringHash(s: JsString): (h: int)
    ensures 0 <= h <= TwoTo31
  {
    AbsInt(HashFold(s))
  }

  /** `hashString`. */
  method HashString(str: JsString) returns (h: int)
    ensures h == StringHash(str)
  {
    var hash := 0;
    for i := 0 to |str|
      invariant hash == HashFold(str[..i])
    {
      var code := str[i];
      assert str[..i + 1][..i] == str[..i] && str[..i + 1][i] == code;
      hash := ShiftLeft5(hash) - hash + code as int;
      hash := ToInt32(hash);
    }
    assert str[..|str|] == str;
    h := AbsInt(hash);
  }

  /** The empty string hashes to 0, and a one-unit string to its code. */
  lemma StringHashSmall(c: CodeUnit)
    ensures StringHash([]) == 0
    ensures StringHash([c]) == c as int
  {
    assert [c][..0] == [];
    HashStepIsWrap(0, c);
  }

  /** "ab" hashes to 31 * 97 + 98. */
  lemma StringHashExample()
    ensures StringHash([97, 98]) == 3105
  {
    var s: JsString := [97, 98];
    assert s[..1] == [97];
    StringHashSmall(97);
    assert HashFold([97]) == 97;
    HashStepIsWrap(97, 98);
    ToInt32Identity(3105);
    assert HashFold(s) == HashStep(97, 98) == 3105;
  }

  // ------------------------------------------------------------ generator

  const Multiplier: int := 1664525
  const Increment: int := 1013904223

  /** `state = (a * state + c) % m`. The state is never negative, so the
      remainder agrees with JavaScript's `%`. */
  function NextState(state: int): (s: int)
    ensures 0 <= s < TwoTo32
  {
    (Multiplier * state + Increment) % TwoTo32
  }

  /** What `rng()` returns for the new state `s`: `state / m`. */
  function Unit(s: int): real
  {
    s as real / TwoTo32 as real
  }

  /** Every `rng()` value lies in [0, 1). */
  lemma UnitInRange(s: int)
    requires 0 <= s < TwoTo32
    ensures 0.0 <= Unit(s) < 1.0
  {
  }

  /** The closure `seededRandom` returns, with its captured `state`. */
  class Lcg {
    var state: int

    ghost predicate Valid()
      reads this
    {
      0 <= state < TwoTo32
    }

    /** `seededRandom(seed)`: the initial state is `Math.abs` of the
        seed's hash, which is what `hashString(seed)` returns. */
    constructor(seed: JsString)
      ensures Valid()
      ensures state == StringHash(seed)
    {
      var h := HashString(seed);
      state := h;
    }

    /** One call of the closure. */
    method Next() returns (x: real)
      requires Valid()
      modifies this
      ensures Valid()
      ensures state == NextState(old(state))
      ensures x == Unit(state) && 0.0 <= x < 1.0
    {
      state := (Multiplier * state + Increment) % TwoTo32;
      x := state as real / TwoTo32 as real;
      UnitInRange(state);
    }
  }

  // --------------------------------------------------------------- shuffle

  /** `Math.floor(u * (i + 1))`. */
  function Scale(u: real, i: int): int
  {
    (u * (i + 1) as real).Floor
  }

  /** `Math.floor(rng() * (i + 1))` for the generator state `s`. */
  function SwapIndex(s: int, i: int): int
  {
    Scale(Unit(s), i)
  }

  /** Every swap partner lies in [0, i]. */
  lemma SwapIndexInRange(s: int, i: int)
    requires 0 <= s < TwoTo32 && 0 <= i
    ensures 0 <= SwapIndex(s, i) <= i
  {
    var u, n := Unit(s), (i + 1) as real;
    UnitInRange(s);
    assert 0.0 <= u * n;
    assert u * n < n by {
      assert (1.0 - u) * n > 0.0;
    }
    var f := (u * n).Floor;
    assert f as real <= u * n < n;
    assert f < i + 1;
    assert SwapIndex(s, i) == f;
  }

  function Swap<T>(xs: seq<T>, i: int, j: int): (r: seq<T>)
    requires 0 <= i < |xs| && 0 <= j < |xs|
    ensures |r| == |xs| && r[i] == xs[j] && r[j] == xs[i]
    ensures forall k | 0 <= k < |xs| && k != i && k != j :: r[k] == xs[k]
  {
    xs[i := xs[j]][j := xs[i]]
  }

  /** A swap rearranges and keeps every element. */
  lemma SwapPermutes<T>(xs: seq<T>, i: int, j: int)
    requires 0 <= i < |xs| && 0 <= j < |xs|
    ensures multiset(Swap(xs, i, j)) == multiset(xs)
  {
    if i != j {
      var ys := xs[i := xs[j]];
      assert multiset(ys) == multiset(xs) - multiset{xs[i]} + multiset{xs[j]};
      assert multiset(ys[j := xs[i]]) == multiset(ys) - multiset{ys[j]} + multiset{xs[i]};
    }
  }

  /** The rounds of the loop still to run, from index `i` down to 1, on
      `xs` with the generator in state `state`. */
  function FisherYates<T>(xs: seq<T>, state: int, i: int): seq<T>
    requires 0 <= state < TwoTo32 && i < |xs|
    decreases i
  {
    if i <= 0 then xs
    else
      var s := NextState(state);
      SwapIndexInRange(s, i);
      FisherYates(Swap(xs, i, SwapIndex(s, i)), s, i - 1)
  }

  /** The shuffle of `xs` seeded by `seed`. */
  function Shuffled<T>(xs: seq<T>, seed: JsString): seq<T>
  {
    FisherYates(xs, StringHash(seed), |xs| - 1)
  }

  lemma {:induction false} FisherYatesPermutes<T>(xs: seq<T>, state: int, i: int)
    requires 0 <= state < TwoTo32 && i < |xs|
    ensures |FisherYates(xs, state, i)| == |xs|
    ensures multiset(FisherYates(xs, state, i)) == multiset(xs)
    decreases i
  {
    if i > 0 {
      var s := NextState(state);
      SwapIndexInRange(s, i);
      var j := SwapIndex(s, i);
      SwapPermutes(xs, i, j);
      FisherYatesPermutes(Swap(xs, i, j), s, i - 1);
    }
  }

  /** The shuffle returns a permutation of its input. */
  lemma ShuffledPermutes<T>(xs: seq<T>, seed: JsString)
    ensures |Shuffled(xs, seed)| == |xs|
    ensures multiset(Shuffled(xs, seed)) == multiset(xs)
  {
    FisherYatesPermutes(xs, StringHash(seed), |xs| - 1);
  }

  /** With fewer than two elements the loop does not run. */
  lemma ShortUnchanged<T>(xs: seq<T>, seed: JsString)
    requires |xs| <= 1
    ensures Shuffled(xs, seed) == xs
  {
  }

  /** With the empty seed the generator starts at 0, its first value is
      about 0.236, and a pair is swapped. */
  lemma ShuffleExample()
    ensures Shuffled([10, 20], []) == [20, 10]
  {
    var xs: seq<int> := [10, 20];
    StringHashSmall(0);
    var s := NextState(0);
    assert s == 1013904223;
    var u := Unit(s);
    assert u == 1013904223.0 / 4294967296.0;
    assert 0.0 <= u * 2.0 < 1.0;
    assert Scale(u, 1) == 0;
    assert SwapIndex(s, 1) == 0;
    assert Swap(xs, 1, 0) == [20, 10];
    assert Shuffled(xs, []) == FisherYates(xs, 0, 1);
    assert FisherYates(xs, 0, 1) == FisherYates(Swap(xs, 1, 0), s, 0);
  }

  /** `seededShuffle`: shuffles a fresh copy; the input is only read. */
  method SeededShuffle<T>(input: array<T>, seed: JsString) returns (shuffled: array<T>)
    ensures fresh(shuffled)
    ensures shuffled[..] == Shuffled(input[..], seed)
  {
    var original := input[..];
    shuffled := new T[input.Length](k requires 0 <= k < |original| => original[k]);
    assert shuffled[..] == original;
    var rng := new Lcg(seed);
    var i := shuffled.Length - 1;
    while i > 0
      invariant -1 <= i < shuffled.Length
      invariant rng.Valid()
      invariant FisherYates(shuffled[..], rng.state, i) == Shuffled(original, seed)
      decreases i
    {
      ghost var before, state := shuffled[..], rng.state;
      var r := rng.Next();
      var j := Scale(r, i);
      SwapIndexInRange(rng.state, i);
      assert FisherYates(before, state, i) == FisherYates(Swap(before, i, j), rng.state, i - 1);
      shuffled[i], shuffled[j] := shuffled[j], shuffled[i];
      assert shuffled[..] == Swap(before, i, j);
      i := i - 1;
    }
  }
}
