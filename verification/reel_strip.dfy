/**
 * Reel strips: building a strip from symbol weights, the Fisher-Yates
 * shuffle of a copy, and the visible window that wraps around the strip.
 */
module ReelStrips {
  import opened Types
  import opened Rng

  type Strip = seq<Symbol>

  /** Symbol weights in the key order of the weight record. */
  type Weights = seq<(Symbol, int)>

  /** `n` copies of `s`; none when `n <= 0`. */
  function Repeat(s: Symbol, n: int): (r: Strip)
    ensures |r| == if n > 0 then n else 0
    ensures forall k :: 0 <= k < |r| ==> r[k] == s
  {
    seq(if n > 0 then n else 0, _ => s)
  }

  /** The strip built from the first `n` weight entries. */
  function ExpandUpTo(w: Weights, n: nat): Strip
    requires n <= |w|
  {
    if n == 0 then [] else ExpandUpTo(w, n - 1) + Repeat(w[n - 1].0, w[n - 1].1)
  }

  /** The strip `buildReelStrip` appends: each symbol `weight` times, in key order. */
  function Expand(w: Weights): Strip
  {
    ExpandUpTo(w, |w|)
  }

  /** The sum of the positive weights among the first `n` entries. */
  function PositiveTotal(w: Weights, n: nat): int
    requires n <= |w|
  {
    if n == 0 then 0 else PositiveTotal(w, n - 1) + (if w[n - 1].1 > 0 then w[n - 1].1 else 0)
  }

  /** The sum of the positive weights given to `s` among the first `n` entries. */
  function WeightOf(w: Weights, n: nat, s: Symbol): int
    requires n <= |w|
  {
    if n == 0 then 0
    else WeightOf(w, n - 1, s) + (if w[n - 1].0 == s && w[n - 1].1 > 0 then w[n - 1].1 else 0)
  }

  /** A weight record has each key once. */
  predicate DistinctKeys(w: Weights)
  {
    forall i, j :: 0 <= i < j < |w| ==> w[i].0 != w[j].0
  }

  lemma {:induction false} ExpandUpToLength(w: Weights, n: nat)
    requires n <= |w|
    ensures |ExpandUpTo(w, n)| == PositiveTotal(w, n)
  {
    if n > 0 {
      ExpandUpToLength(w, n - 1);
    }
  }

  lemma {:induction false} RepeatCount(x: Symbol, m: int, s: Symbol)
    ensures multiset(Repeat(x, m))[s] == if x == s && m > 0 then m else 0
    decreases if m > 0 then m else 0
  {
    if m > 0 {
      assert Repeat(x, m) == Repeat(x, m - 1) + [x];
      RepeatCount(x, m - 1, s);
    } else {
      assert Repeat(x, m) == [];
    }
  }

  lemma {:induction false} ExpandUpToCount(w: Weights, n: nat, s: Symbol)
    requires n <= |w|
    ensures multiset(ExpandUpTo(w, n))[s] == WeightOf(w, n, s)
  {
    if n > 0 {
      ExpandUpToCount(w, n - 1, s);
      RepeatCount(w[n - 1].0, w[n - 1].1, s);
    }
  }

  lemma {:induction false} WeightOfDistinct(w: Weights, n: nat, k: nat)
    requires DistinctKeys(w) && n <= |w| && k < |w|
    ensures WeightOf(w, n, w[k].0) == if k < n && w[k].1 > 0 then w[k].1 else 0
  {
    if n > 0 {
      WeightOfDistinct(w, n - 1, k);
    }
  }

  lemma {:induction false} WeightOfPositive(w: Weights, n: nat, s: Symbol)
    requires n <= |w|
    ensures WeightOf(w, n, s) >= 0
    ensures WeightOf(w, n, s) > 0 <==> exists k :: 0 <= k < n && w[k].0 == s && w[k].1 > 0
  {
    if n > 0 {
      WeightOfPositive(w, n - 1, s);
    }
  }

  lemma {:induction false} PositiveTotalZero(w: Weights, n: nat)
    requires n <= |w|
    ensures PositiveTotal(w, n) >= 0
    ensures PositiveTotal(w, n) == 0 <==> forall k :: 0 <= k < n ==> w[k].1 <= 0
  {
    if n > 0 {
      PositiveTotalZero(w, n - 1);
    }
  }

  /**
   * With distinct keys, every symbol occurs in the built strip exactly as many
   * times as its weight says, and not at all when that weight is not positive.
   */
  lemma OccursExactlyWeight(w: Weights, k: nat)
    requires DistinctKeys(w) && k < |w|
    ensures multiset(Expand(w))[w[k].0] == if w[k].1 > 0 then w[k].1 else 0
  {
    ExpandUpToCount(w, |w|, w[k].0);
    WeightOfDistinct(w, |w|, k);
  }

  /** A symbol is on the strip exactly when some entry gives it a positive weight. */
  lemma OnStripIffPositiveWeight(w: Weights, s: Symbol)
    ensures s in Expand(w) <==> exists k :: 0 <= k < |w| && w[k].0 == s && w[k].1 > 0
  {
    ExpandUpToCount(w, |w|, s);
    WeightOfPositive(w, |w|, s);
  }

  /** The strip is as long as the sum of the positive weights, and empty only when no weight is positive. */
  lemma ExpandLength(w: Weights)
    ensures |Expand(w)| == PositiveTotal(w, |w|)
    ensures Expand(w) == [] <==> forall k :: 0 <= k < |w| ==> w[k].1 <= 0
  {
    ExpandUpToLength(w, |w|);
    PositiveTotalZero(w, |w|);
  }

  /** `buildReelStrip`: nested loops that push each symbol `weight` times. */
  method BuildReelStrip(weights: Weights) returns (r: Result<Strip, Error>)
    ensures r == if Expand(weights) == [] then Err(EmptyReelStrip) else Ok(Expand(weights))
    ensures r.Err? <==> forall k :: 0 <= k < |weights| ==> weights[k].1 <= 0
    ensures r.Ok? ==> |r.value| == PositiveTotal(weights, |weights|)
  {
    var strip: Strip := [];
    for k := 0 to |weights|
      invariant strip == ExpandUpTo(weights, k)
    {
      var symbol, weight := weights[k].0, weights[k].1;
      if weight > 0 {
        for i := 0 to weight
          invariant strip == ExpandUpTo(weights, k) + Repeat(symbol, i)
        {
          assert Repeat(symbol, i + 1) == Repeat(symbol, i) + [symbol];
          strip := strip + [symbol];
        }
      } else {
        assert Repeat(symbol, weight) == [];
      }
    }
    ExpandLength(weights);
    if |strip| == 0 {
      return Err(EmptyReelStrip);
    }
    r := Ok(strip);
  }

  /** `s` with the elements at `i` and `j` exchanged. */
  function Swap(s: Strip, i: int, j: int): (r: Strip)
    requires 0 <= i < |s| && 0 <= j < |s|
    ensures |r| == |s| && multiset(r) == multiset(s)
    ensures r[i] == s[j] && r[j] == s[i]
    ensures forall k :: 0 <= k < |s| && k != i && k != j ==> r[k] == s[k]
  {
    s[i := s[j]][j := s[i]]
  }

  /** A shuffled strip and the generator state after the shuffle. */
  datatype Shuffled = Shuffled(strip: Strip, seed: int)

  /**
   * The Fisher-Yates steps for positions `i` down to 1: each draws
   * `nextInt(i + 1)` and swaps, unless the draw is negative (the source then
   * reads `undefined` and skips the swap).
   */
  function ShuffleFrom(s: Strip, i: int, seed: int): (r: Shuffled)
    requires i < |s|
    ensures |r.strip| == |s| && multiset(r.strip) == multiset(s)
    ensures r.seed == Advance(seed, if i > 0 then i else 0)
    decreases i
  {
    if i <= 0 then Shuffled(s, seed)
    else
      var next := NextSeed(seed);
      var j := Scale(next, i + 1);
      AdvanceAdd(seed, 1, i - 1);
      ShuffleFrom(if 0 <= j then Swap(s, i, j) else s, i - 1, next)
  }

  /** `shuffleStrip` on a strip and a generator state. */
  function Shuffle(s: Strip, seed: int): Shuffled
  {
    ShuffleFrom(s, |s| - 1, seed)
  }

  /**
   * A shuffle is a permutation of its input and makes exactly `len - 1` draws
   * (none for a strip of length 0 or 1).
   */
  lemma ShuffleIsPermutation(s: Strip, seed: int)
    ensures |Shuffle(s, seed).strip| == |s|
    ensures multiset(Shuffle(s, seed).strip) == multiset(s)
    ensures Shuffle(s, seed).seed == Advance(seed, if |s| > 0 then |s| - 1 else 0)
  {
  }

  /** `shuffleStrip`: swaps in place in a copy of the strip, counting down. */
  method ShuffleStrip(strip: Strip, rng: SeededRng) returns (shuffled: Strip)
    modifies rng
    ensures Shuffled(shuffled, rng.seed) == Shuffle(strip, old(rng.seed))
    ensures multiset(shuffled) == multiset(strip)
  {
    var a := new Symbol[|strip|](k requires 0 <= k < |strip| => strip[k]);
    assert a[..] == strip;
    var i := a.Length - 1;
    while i > 0
      invariant -1 <= i < a.Length
      invariant ShuffleFrom(a[..], i, rng.seed) == Shuffle(strip, old(rng.seed))
    {
      var draw := rng.NextInt(i + 1);
      var j := draw.value;
      if 0 <= j {
        ghost var before := a[..];
        a[i], a[j] := a[j], a[i];
        assert a[..] == Swap(before, i, j);
      }
      i := i - 1;
    }
    shuffled := a[..];
  }

  /** The first `n` symbols of the window starting at `start`, or the failure of the first bad index. */
  function VisibleUpTo(strip: Strip, start: int, n: nat): Result<Strip, Error>
    requires |strip| > 0
  {
    if n == 0 then Ok([])
    else match VisibleUpTo(strip, start, n - 1)
      case Err(e) => Err(e)
      case Ok(v) =>
        var index := JsRem(start + n - 1, |strip|);
        if index < 0 then Err(SymbolIndexUndefined(index)) else Ok(v + [strip[index]])
  }

  /** `extractVisibleSymbols` as a function of its arguments. */
  function Visible(strip: Strip, start: int, rows: int): Result<Strip, Error>
  {
    if |strip| == 0 then Err(EmptyStrip)
    else if rows <= 0 then Err(VisibleRowsNotPositive)
    else VisibleUpTo(strip, start, rows)
  }

  /** Once an index fails, the window fails with that same error. */
  lemma {:induction false} VisibleUpToErrStays(strip: Strip, start: int, k: nat, n: nat)
    requires |strip| > 0 && k <= n
    requires VisibleUpTo(strip, start, k).Err?
    ensures VisibleUpTo(strip, start, n) == VisibleUpTo(strip, start, k)
  {
    if n > k {
      VisibleUpToErrStays(strip, start, k, n - 1);
    }
  }

  lemma {:induction false} VisibleUpToWraps(strip: Strip, start: int, n: nat)
    requires |strip| > 0 && start >= 0
    ensures VisibleUpTo(strip, start, n).Ok?
    ensures |VisibleUpTo(strip, start, n).value| == n
    ensures forall i :: 0 <= i < n ==> VisibleUpTo(strip, start, n).value[i] == strip[(start + i) % |strip|]
  {
    if n > 0 {
      VisibleUpToWraps(strip, start, n - 1);
    }
  }

  /**
   * For a non-negative start the window has exactly `rows` symbols and
   * symbol `i` is `strip[(start + i) % len]`.
   */
  lemma VisibleWraps(strip: Strip, start: int, rows: int)
    requires |strip| > 0 && rows > 0 && start >= 0
    ensures Visible(strip, start, rows).Ok?
    ensures |Visible(strip, start, rows).value| == rows
    ensures forall i :: 0 <= i < rows ==> Visible(strip, start, rows).value[i] == strip[(start + i) % |strip|]
  {
    VisibleUpToWraps(strip, start, rows);
  }

  /** A negative start that is not a multiple of the length reads `undefined` at once. */
  lemma VisibleNegativeStart(strip: Strip, start: int, rows: int)
    requires |strip| > 0 && rows > 0 && JsRem(start, |strip|) < 0
    ensures Visible(strip, start, rows) == Err(SymbolIndexUndefined(JsRem(start, |strip|)))
  {
    assert VisibleUpTo(strip, start, 1) == Err(SymbolIndexUndefined(JsRem(start, |strip|)));
    VisibleUpToErrStays(strip, start, 1, rows);
  }

  /** The documented example: [A, B, C, D, E] from index 3 with 4 rows gives [D, E, A, B]. */
  lemma VisibleExample()
    ensures Visible([Orange, Grape, Bell, Bar, Seven], 3, 4) == Ok([Bar, Seven, Orange, Grape])
  {
    var s := [Orange, Grape, Bell, Bar, Seven];
    VisibleWraps(s, 3, 4);
    var v := Visible(s, 3, 4).value;
    assert (3 + 0) % 5 == 3 && (3 + 1) % 5 == 4 && (3 + 2) % 5 == 0 && (3 + 3) % 5 == 1;
    assert v[0] == s[3] && v[1] == s[4] && v[2] == s[0] && v[3] == s[1];
    assert v == [Bar, Seven, Orange, Grape];
  }

  /** `extractVisibleSymbols`: a loop that pushes `rows` symbols, wrapping modulo the length. */
  method ExtractVisibleSymbols(strip: Strip, start: int, rows: int) returns (r: Result<Strip, Error>)
    ensures r == Visible(strip, start, rows)
    ensures |strip| == 0 ==> r == Err(EmptyStrip)
    ensures |strip| > 0 && rows <= 0 ==> r == Err(VisibleRowsNotPositive)
    ensures |strip| > 0 && rows > 0 && start >= 0 ==>
      r.Ok? && |r.value| == rows && forall i :: 0 <= i < rows ==> r.value[i] == strip[(start + i) % |strip|]
  {
    if |strip| == 0 {
      return Err(EmptyStrip);
    }
    if rows <= 0 {
      return Err(VisibleRowsNotPositive);
    }
    var visible: Strip := [];
    for i := 0 to rows
      invariant VisibleUpTo(strip, start, i) == Ok(visible)
    {
      var index := JsRem(start + i, |strip|);
      if index < 0 {
        VisibleUpToErrStays(strip, start, i + 1, rows);
        return Err(SymbolIndexUndefined(index));
      }
      visible := visible + [strip[index]];
    }
    r := Ok(visible);
    if start >= 0 {
      VisibleWraps(strip, start, rows);
    }
  }
}
