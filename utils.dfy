/** Numeric helpers (src/utils.ts): a seeded 32-bit linear congruential
    generator and the sliding-window rolling mean, plus the plain sum of a
    sequence of reals the other modules share. */
module Utils {
  import opened Wrappers

  // ----- sums -----

  function Sum(xs: seq<real>): real {
    if xs == [] then 0.0 else Sum(xs[..|xs| - 1]) + xs[|xs| - 1]
  }

  /** Extending a slice by one element on the right adds it to the sum. */
  lemma SumExtend(xs: seq<real>, a: nat, b: nat)
    requires a <= b < |xs|
    ensures Sum(xs[a..b + 1]) == Sum(xs[a..b]) + xs[b]
  {
    assert xs[a..b + 1][..b - a] == xs[a..b];
  }

  /** Dropping the first element of a slice subtracts it from the sum. */
  lemma {:induction false} SumDropFirst(xs: seq<real>, a: nat, b: nat)
    requires a < b <= |xs|
    ensures Sum(xs[a + 1..b]) == Sum(xs[a..b]) - xs[a]
    decreases b - a
  {
    if b == a + 1 {
      assert xs[a + 1..b] == [];
      assert xs[a..b] == [xs[a]];
      assert xs[a..b][..0] == [];
    } else {
      SumDropFirst(xs, a, b - 1);
      SumExtend(xs, a + 1, b - 1);
      SumExtend(xs, a, b - 1);
    }
  }

  /** The sum of `n` copies of `c` is `n * c`. */
  lemma {:induction false} SumOfConstant(xs: seq<real>, c: real)
    requires forall k :: 0 <= k < |xs| ==> xs[k] == c
    ensures Sum(xs) == |xs| as real * c
  {
    if xs != [] {
      SumOfConstant(xs[..|xs| - 1], c);
    }
  }

  // ----- seededRandom -----

  const TwoTo31: int := 0x8000_0000
  const TwoTo32: int := 0x1_0000_0000

  /** `x >>> 0` for an integral `x`: the residue modulo 2^32. */
  function ToUint32(x: int): (r: int)
    ensures 0 <= r < TwoTo32
    ensures 0 <= x < TwoTo32 ==> r == x
    ensures (x - r) % TwoTo32 == 0
  {
    x % TwoTo32
  }

  /** `s & 0xffffffff`: the same 32 bits read as a signed integer. */
  function ToInt32(s: int): (r: int)
    requires 0 <= s < TwoTo32
    ensures -TwoTo31 <= r < TwoTo31
    ensures (s - r) % TwoTo32 == 0
    ensures r < 0 <==> s >= TwoTo31
  {
    if s >= TwoTo31 then s - TwoTo32 else s
  }

  /** One generator step: `(1664525 * s + 1013904223) >>> 0`. */
  function LcgStep(s: int): (r: int)
    ensures 0 <= r < TwoTo32
  {
    ToUint32(1664525 * s + 1013904223)
  }

  /** The value a call returns for the new state: a signed 32-bit integer over
      2^32, so in [-0.5, 0.5). */
  function Output(s: int): (x: real)
    requires 0 <= s < TwoTo32
    ensures -0.5 <= x < 0.5
    ensures x < 0.0 <==> s >= TwoTo31
  {
    ToInt32(s) as real / TwoTo32 as real
  }

  /** The unsigned reading `(s >>> 0) / 2^32`, which lies in [0, 1). */
  function UnsignedOutput(s: int): (x: real)
    requires 0 <= s < TwoTo32
    ensures 0.0 <= x < 1.0
    ensures s < TwoTo31 ==> x == Output(s)
  {
    s as real / TwoTo32 as real
  }

  /** The generator's state after `n` calls. */
  function StateAfter(seed: int, n: nat): (s: int)
    ensures 0 <= s < TwoTo32
  {
    if n == 0 then ToUint32(seed) else LcgStep(StateAfter(seed, n - 1))
  }

  /** The closure returned by `seededRandom(seed)`: its captured state `s`. */
  class SeededRandom {
    var s: int
    ghost const seed: int
    ghost var calls: nat

    /** The state is determined by the seed and the number of calls so far. */
    ghost predicate Valid()
      reads this
    {
      s == StateAfter(seed, calls)
    }

    constructor (seed: int)
      ensures Valid() && this.seed == seed && calls == 0
      ensures s == ToUint32(seed)
    {
      s := ToUint32(seed);
      this.seed := seed;
      calls := 0;
    }

    /** One call of the closure. */
    method Next() returns (x: real)
      requires Valid()
      modifies this
      ensures Valid() && calls == old(calls) + 1
      ensures s == LcgStep(old(s))
      ensures x == Output(StateAfter(seed, calls))
    {
      s := LcgStep(s);
      calls := calls + 1;
      x := ToInt32(s) as real / TwoTo32 as real;
    }
  }

  /** Seed 42's first value is 1083814273 / 2^32, as the generator computes it. */
  lemma FirstDrawOfSeed42()
    ensures StateAfter(42, 1) == 1083814273
    ensures Output(StateAfter(42, 1)) == 1083814273.0 / 4294967296.0
  {
  }

  /** Seed 1000's first value is negative: the state 2678429223 has its top bit
      set, so the signed reading is -1616538073. */
  lemma NegativeFirstDraw()
    ensures StateAfter(1000, 1) == 2678429223
    ensures Output(StateAfter(1000, 1)) == -1616538073.0 / 4294967296.0
    ensures Output(StateAfter(1000, 1)) < 0.0
    ensures UnsignedOutput(StateAfter(1000, 1)) == 2678429223.0 / 4294967296.0
  {
  }

  /** The unsigned reading differs from the signed one by exactly 1 on every
      state with the top bit set, and agrees elsewhere. */
  lemma SignedAndUnsignedReadings(s: int)
    requires 0 <= s < TwoTo32
    ensures s >= TwoTo31 ==> UnsignedOutput(s) == Output(s) + 1.0
    ensures s < TwoTo31 ==> UnsignedOutput(s) == Output(s)
  {
  }

  // ----- rollingMean -----

  /** Where the window of the running sum starts once `i` values are summed. */
  function WindowStart(i: nat, period: nat): (k: nat)
    ensures k <= i
  {
    if i >= period then i - period else 0
  }

  /** The mean of the `period` values ending at index `i`. */
  function WindowMean(arr: seq<real>, i: nat, period: nat): real
    requires 1 <= period && period - 1 <= i < |arr|
  {
    Sum(arr[WindowStart(i + 1, period)..i + 1]) / period as real
  }

  /** Entry `i` of `rollingMean(arr, period)`: a hole (NaN in the source) before
      index `period - 1`, the window's mean from there on. */
  function MeanAt(arr: seq<real>, i: nat, period: nat): Option<real>
    requires period >= 1 && i < |arr|
  {
    if i >= period - 1 then Some(WindowMean(arr, i, period)) else None
  }

  /** The entries of `rollingMean(arr, period)`. */
  function RollingMeans(arr: seq<real>, period: nat): (r: seq<Option<real>>)
    requires period >= 1
    ensures |r| == |arr|
    ensures forall i :: 0 <= i < |arr| ==> (r[i].Some? <==> i >= period - 1)
    ensures forall i :: period - 1 <= i < |arr| ==> r[i] == Some(WindowMean(arr, i, period))
  {
    seq(|arr|, i requires 0 <= i < |arr| => MeanAt(arr, i, period))
  }

  /** One step of the running sum: add the new value, drop the one leaving the window. */
  method SlideWindow(arr: seq<real>, period: nat, i: nat, sum: real) returns (sum': real)
    requires period >= 1 && i < |arr|
    requires sum == Sum(arr[WindowStart(i, period)..i])
    ensures sum' == Sum(arr[WindowStart(i + 1, period)..i + 1])
  {
    SumExtend(arr, WindowStart(i, period), i);
    sum' := sum + arr[i];
    if i >= period {
      SumDropFirst(arr, i - period, i + 1);
      sum' := sum' - arr[i - period];
    }
  }

  /** The running sum loop: `sum` always holds the current window's sum. */
  method RollingMean(arr: seq<real>, period: nat) returns (res: seq<Option<real>>)
    requires period >= 1
    ensures res == RollingMeans(arr, period)
  {
    var out := new Option<real>[|arr|](_ => None);
    var sum := 0.0;
    for i := 0 to |arr|
      invariant sum == Sum(arr[WindowStart(i, period)..i])
      invariant forall j :: 0 <= j < i ==> out[j] == MeanAt(arr, j, period)
      invariant forall j :: i <= j < |arr| ==> out[j] == None
    {
      sum := SlideWindow(arr, period, i, sum);
      if i >= period - 1 {
        out[i] := Some(sum / period as real);
      }
    }
    res := out[..];
    assert forall j :: 0 <= j < |arr| ==> res[j] == RollingMeans(arr, period)[j];
  }

  /** A constant series has that constant as every window mean. */
  lemma ConstantMean(arr: seq<real>, c: real, i: nat, period: nat)
    requires 1 <= period && period - 1 <= i < |arr|
    requires forall k :: 0 <= k < |arr| ==> arr[k] == c
    ensures WindowMean(arr, i, period) == c
  {
    SumOfConstant(arr[WindowStart(i + 1, period)..i + 1], c);
  }

  /** Test scenario: over 1..5 with period 2, entry 0 is a hole, entry 1 is 1.5
      and entry 4 is 4.5. */
  lemma RollingMeanExample()
    ensures var r := RollingMeans([1.0, 2.0, 3.0, 4.0, 5.0], 2);
            r[0] == None && r[1] == Some(1.5) && r[4] == Some(4.5)
  {
    var arr := [1.0, 2.0, 3.0, 4.0, 5.0];
    assert arr[0..2] == [1.0, 2.0];
    assert arr[3..5] == [4.0, 5.0];
    assert Sum([1.0, 2.0]) == 3.0 by {
      assert [1.0, 2.0][..1] == [1.0];
      assert [1.0][..0] == [];
    }
    assert Sum([4.0, 5.0]) == 9.0 by {
      assert [4.0, 5.0][..1] == [4.0];
      assert [4.0][..0] == [];
    }
  }
}
