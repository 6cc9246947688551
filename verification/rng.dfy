/**
 * The seeded linear congruential generator (multiplier 9301, increment 49297,
 * modulus 233280) and its bounded integer draw.
 *
 * The seed is an unbounded integer. The source's `%` truncates toward zero,
 * so a negative seed yields a negative remainder; `JsRem` writes that out.
 */
module Rng {
  import opened Types

  const Multiplier: int := 9301
  const Increment: int := 49297
  const Modulus: int := 233280

  /** The remainder of JavaScript's `%` on integers: it takes the sign of `a`. */
  function JsRem(a: int, m: int): (r: int)
    requires m > 0
    ensures a >= 0 ==> 0 <= r < m
    ensures a < 0 ==> -m < r <= 0
  {
    if a >= 0 then a % m else -((-a) % m)
  }

  /** The state after one step of the generator. */
  function NextSeed(seed: int): (s: int)
    ensures seed >= 0 ==> 0 <= s < Modulus
    ensures -Modulus < s < Modulus
  {
    JsRem(seed * Multiplier + Increment, Modulus)
  }

  /** The state after `n` steps. */
  function Advance(seed: int, n: nat): int
  {
    if n == 0 then seed else NextSeed(Advance(seed, n - 1))
  }

  /**
   * `floor(s / Modulus * max)`, the bounded draw from a freshly stepped state
   * `s`, computed exactly (the source computes it in floating point).
   */
  function Scale(s: int, max: int): (r: int)
    requires max > 0
    ensures 0 <= s < Modulus ==> 0 <= r < max
    ensures -Modulus < s < Modulus ==> -max <= r < max
  {
    ScaleBounds(s, max);
    (s * max) / Modulus
  }

  lemma ScaleBounds(s: int, max: int)
    requires max > 0
    ensures 0 <= s < Modulus ==> 0 <= (s * max) / Modulus < max
    ensures -Modulus < s < Modulus ==> -max <= (s * max) / Modulus < max
  {
    if -Modulus < s < Modulus {
      MulStrict(-Modulus, s, max);
      MulStrict(s, Modulus, max);
      assert (-Modulus * max) / Modulus == -max;
      DivMonotone(-Modulus * max, s * max, Modulus);
      DivStrict(s * max, max, Modulus);
      if 0 <= s {
        assert 0 <= s * max;
        DivMonotone(0, s * max, Modulus);
      }
    }
  }

  lemma MulStrict(a: int, b: int, c: int)
    requires c > 0 && a < b
    ensures a * c < b * c
  {
    assert b * c - a * c == (b - a) * c;
  }

  lemma MulCancel(d: int, x: int, y: int)
    requires d > 0 && d * x < d * y
    ensures x < y
  {
    assert d * y - d * x == d * (y - x);
  }

  lemma DivMonotone(a: int, b: int, d: int)
    requires d > 0 && a <= b
    ensures a / d <= b / d
  {
    var qa, qb := a / d, b / d;
    assert d * qa <= a;
    assert b < d * qb + d;
    assert d * qb + d == d * (qb + 1);
    MulCancel(d, qa, qb + 1);
  }

  lemma DivStrict(x: int, q: int, d: int)
    requires d > 0 && x < d * q
    ensures x / d < q
  {
  }

  /** A successful bounded draw: the value and the generator state after it. */
  datatype Draw = Draw(value: int, seed: int)

  /** `nextInt(max)` as a function of the state before the call. */
  function NextInt(seed: int, max: int): (r: Result<Draw, Error>)
    ensures max <= 0 <==> r == Err(MaxNotPositive)
    ensures r.Ok? ==> r.value.seed == NextSeed(seed) && r.value.seed == Advance(seed, 1)
    ensures r.Ok? && seed >= 0 ==> 0 <= r.value.value < max
    ensures r.Ok? ==> -max <= r.value.value < max
  {
    if max <= 0 then Err(MaxNotPositive)
    else Ok(Draw(Scale(NextSeed(seed), max), NextSeed(seed)))
  }

  /** A non-negative state stays non-negative and below the modulus after any number of steps. */
  lemma {:induction false} AdvanceInRange(seed: int, n: nat)
    requires seed >= 0
    ensures Advance(seed, n) >= 0
    ensures n > 0 ==> Advance(seed, n) < Modulus
  {
    if n > 0 {
      AdvanceInRange(seed, n - 1);
    }
  }

  /** Stepping `m` times and then `n` times is stepping `m + n` times. */
  lemma {:induction false} AdvanceAdd(seed: int, m: nat, n: nat)
    ensures Advance(Advance(seed, m), n) == Advance(seed, m + n)
  {
    if n > 0 {
      AdvanceAdd(seed, m, n - 1);
    }
  }

  /** `n` rounds of `k` steps are one round of `k` steps after `n - 1` rounds. */
  lemma AdvanceRounds(seed: int, k: nat, n: nat)
    requires n > 0
    ensures Advance(Advance(seed, (n - 1) * k), k) == Advance(seed, n * k)
  {
    var done: nat := (n - 1) * k;
    var total: nat := n * k;
    assert done + k == total by {
      assert n * k == (n - 1) * k + k;
    }
    AdvanceAdd(seed, done, k);
  }

  /** The floor of the floating draw equals the integer division used by `Scale`. */
  lemma FloorOfFraction(s: int, max: int)
    requires max > 0
    ensures ((s as real / Modulus as real) * max as real).Floor == (s * max) / Modulus
  {
    var q := (s * max) / Modulus;
    var rem := (s * max) % Modulus;
    assert s * max == q * Modulus + rem;
    assert 0 <= rem < Modulus;
    var x := (s as real / Modulus as real) * max as real;
    assert x == (s * max) as real / Modulus as real;
    assert x == q as real + rem as real / Modulus as real;
    assert 0.0 <= rem as real / Modulus as real < 1.0;
  }

  /** The seeded generator; its only state is `seed`. */
  class SeededRng {
    var seed: int

    constructor (initialSeed: int)
      ensures seed == initialSeed
    {
      seed := initialSeed;
    }

    /** Steps the generator and returns the new state as a fraction of the modulus. */
    method Next() returns (f: real)
      modifies this
      ensures seed == NextSeed(old(seed))
      ensures f == seed as real / Modulus as real
      ensures old(seed) >= 0 ==> 0.0 <= f < 1.0
    {
      seed := JsRem(seed * Multiplier + Increment, Modulus);
      f := seed as real / Modulus as real;
    }

    /** A draw in [0, max) for a non-negative state; fails without stepping when max <= 0. */
    method NextInt(max: int) returns (r: Result<int, Error>)
      modifies this
      ensures max <= 0 ==> r == Err(MaxNotPositive) && seed == old(seed)
      ensures max > 0 ==> seed == NextSeed(old(seed)) && r == Ok(Scale(seed, max))
      ensures max > 0 && old(seed) >= 0 ==> r.Ok? && 0 <= r.value < max
    {
      if max <= 0 {
        return Err(MaxNotPositive);
      }
      var f := Next();
      FloorOfFraction(seed, max);
      r := Ok((f * max as real).Floor);
    }

    method GetSeed() returns (s: int)
      ensures s == seed
    {
      s := seed;
    }

    method SetSeed(newSeed: int)
      modifies this
      ensures seed == newSeed
    {
      seed := newSeed;
    }
  }

  /** The values of a run of draws with the given bounds, from state `seed`. */
  function Draws(seed: int, maxes: seq<int>): (r: seq<Result<int, Error>>)
    ensures |r| == |maxes|
    decreases |maxes|
  {
    if |maxes| == 0 then []
    else
      var d := NextInt(seed, maxes[0]);
      var next := if d.Ok? then d.value.seed else seed;
      [if d.Ok? then Ok(d.value.value) else Err(d.error)] + Draws(next, maxes[1..])
  }

  /** The first draw of a run from position `k`, and the rest of the run. */
  lemma DrawsStep(seed: int, maxes: seq<int>, k: nat)
    requires k < |maxes|
    ensures var max := maxes[k];
      Draws(seed, maxes[k..]) ==
        [if max <= 0 then Err(MaxNotPositive) else Ok(Scale(NextSeed(seed), max))] +
        Draws(if max <= 0 then seed else NextSeed(seed), maxes[k + 1..])
  {
    assert maxes[k..][1..] == maxes[k + 1..];
  }

  /** Draws once per bound from `rng`, collecting the results. */
  method DrawAll(rng: SeededRng, maxes: seq<int>) returns (xs: seq<Result<int, Error>>)
    modifies rng
    ensures xs == Draws(old(rng.seed), maxes)
  {
    xs := [];
    for k := 0 to |maxes|
      invariant xs + Draws(rng.seed, maxes[k..]) == Draws(old(rng.seed), maxes)
    {
      DrawsStep(rng.seed, maxes, k);
      var x := rng.NextInt(maxes[k]);
      xs := xs + [x];
    }
  }

  /**
   * Two generators built with the same seed give the same draws: both runs
   * return exactly the reference sequence `Draws(seed, maxes)`.
   */
  method SameSeedSameDraws(seed: int, maxes: seq<int>) returns (xs: seq<Result<int, Error>>, ys: seq<Result<int, Error>>)
    ensures xs == ys == Draws(seed, maxes)
  {
    var a := new SeededRng(seed);
    var b := new SeededRng(seed);
    xs := DrawAll(a, maxes);
    ys := DrawAll(b, maxes);
  }
}
