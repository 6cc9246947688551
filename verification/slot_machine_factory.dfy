/**
 * The slot machine factory: the default symbol weights, the choice of the
 * generator, five shuffles of one base strip drawn from that one generator,
 * and the machine built over the ten standard paylines and the default
 * paytable.
 *
 * The generator that is used when neither a generator nor a seed is given
 * draws from ambient entropy; here the caller passes it in as `fallback`.
 */
module Factory {
  import opened Types
  import opened Rng
  import opened ReelStrips
  import opened Paylines
  import opened Paytables
  import opened Machine

  /** The default weights, in the key order of the weight record. */
  const DefaultSymbolWeights: Weights := [
    (Orange, 14), (Grape, 14), (Bell, 14), (Bar, 14), (Seven, 14),
    (Diamond, 8), (Wild, 2), (Handcuffs, 10), (Bank, 10)
  ]

  /** The number of reels every factory-built machine has. */
  const ReelCount: nat := 5

  /** The rows shown when the caller gives none. */
  const DefaultVisibleRows: int := 4

  /** The default weights name each symbol once and add up to 100, so the base strip has 100 symbols. */
  lemma DefaultWeightsTotal()
    ensures DistinctKeys(DefaultSymbolWeights)
    ensures PositiveTotal(DefaultSymbolWeights, |DefaultSymbolWeights|) == 100
    ensures |Expand(DefaultSymbolWeights)| == 100
  {
    ExpandLength(DefaultSymbolWeights);
  }

  /** Every symbol is on the default base strip, Wild the fewest times. */
  lemma DefaultStripCounts()
    ensures multiset(Expand(DefaultSymbolWeights))[Seven] == 14
    ensures multiset(Expand(DefaultSymbolWeights))[Diamond] == 8
    ensures multiset(Expand(DefaultSymbolWeights))[Wild] == 2
    ensures multiset(Expand(DefaultSymbolWeights))[Bank] == 10
  {
    DefaultWeightsTotal();
    OccursExactlyWeight(DefaultSymbolWeights, 4);
    OccursExactlyWeight(DefaultSymbolWeights, 5);
    OccursExactlyWeight(DefaultSymbolWeights, 6);
    OccursExactlyWeight(DefaultSymbolWeights, 8);
  }

  /** The optional settings of `createSlotMachine`; `None` is a setting left undefined. */
  datatype FactoryConfig = FactoryConfig(symbolWeights: Option<Weights>, visibleRows: Option<int>, rng: Option<SeededRng>, seed: Option<int>)

  function WeightsOf(config: FactoryConfig): Weights
  {
    if config.symbolWeights.Some? then config.symbolWeights.value else DefaultSymbolWeights
  }

  function RowsOf(config: FactoryConfig): int
  {
    if config.visibleRows.Some? then config.visibleRows.value else DefaultVisibleRows
  }

  /** The reels built so far, with the generator state after their shuffles. */
  datatype ReelsRun = ReelsRun(reels: seq<Strip>, seed: int)

  /** `n` successive shuffles of `base`, each continuing from the state the previous one left. */
  function ShuffleReels(base: Strip, seed: int, n: nat): ReelsRun
  {
    if n == 0 then ReelsRun([], seed)
    else
      var prev := ShuffleReels(base, seed, n - 1);
      var s := Shuffle(base, prev.seed);
      ReelsRun(prev.reels + [s.strip], s.seed)
  }

  /** The draws of one shuffle of `base`. */
  function DrawsPerShuffle(base: Strip): nat
  {
    if |base| > 0 then |base| - 1 else 0
  }

  /** The generator state after `i` shuffles of `k` draws each. */
  function ShuffleStart(seed: int, k: nat, i: nat): int
  {
    Advance(seed, i * k)
  }

  /** `n` shuffles build `n` reels and leave the generator `n` shuffles further on. */
  lemma {:induction false} ShuffleReelsSteps(base: Strip, seed: int, n: nat)
    ensures |ShuffleReels(base, seed, n).reels| == n
    ensures ShuffleReels(base, seed, n).seed == ShuffleStart(seed, DrawsPerShuffle(base), n)
  {
    if n > 0 {
      ShuffleReelsSteps(base, seed, n - 1);
      ShuffleIsPermutation(base, ShuffleReels(base, seed, n - 1).seed);
      AdvanceRounds(seed, DrawsPerShuffle(base), n);
    }
  }

  /**
   * The reels are `n` permutations of the base strip; reel `i` is the shuffle
   * that starts where `i` shuffles have left the shared generator.
   */
  lemma {:induction false} ShuffleReelsMeaning(base: Strip, seed: int, n: nat)
    ensures var run := ShuffleReels(base, seed, n);
      && |run.reels| == n
      && run.seed == ShuffleStart(seed, DrawsPerShuffle(base), n)
      && forall i :: 0 <= i < n ==>
           && run.reels[i] == Shuffle(base, ShuffleStart(seed, DrawsPerShuffle(base), i)).strip
           && multiset(run.reels[i]) == multiset(base)
  {
    ShuffleReelsSteps(base, seed, n);
    if n > 0 {
      ShuffleReelsMeaning(base, seed, n - 1);
      ShuffleReelsSteps(base, seed, n - 1);
      var prev := ShuffleReels(base, seed, n - 1);
      var last := Shuffle(base, prev.seed);
      ShuffleIsPermutation(base, prev.seed);
      var run := ShuffleReels(base, seed, n);
      assert run.reels == prev.reels + [last.strip];
      forall i | 0 <= i < n
        ensures run.reels[i] == Shuffle(base, ShuffleStart(seed, DrawsPerShuffle(base), i)).strip
        ensures multiset(run.reels[i]) == multiset(base)
      {
        if i < n - 1 {
          assert run.reels[i] == prev.reels[i];
        } else {
          assert run.reels[i] == last.strip;
        }
      }
    }
  }

  /** The outcome of building a machine configuration, with the generator state after it. */
  datatype FactoryRun = FactoryRun(result: Result<MachineConfig, Error>, seed: int)

  /**
   * `createSlotMachine` once the weights, the rows and the generator are
   * chosen: the base strip, five shuffles, then the machine's own checks.
   */
  function FactorySpec(weights: Weights, rows: int, seed: int): FactoryRun
  {
    var base := Expand(weights);
    if base == [] then FactoryRun(Err(EmptyReelStrip), seed)
    else
      var run := ShuffleReels(base, seed, ReelCount);
      var config := MachineConfig(run.reels, Paylines10, DefaultPaytable, rows);
      match ConfigError(config)
      case Some(e) => FactoryRun(Err(e), run.seed)
      case None => FactoryRun(Ok(config), run.seed)
  }

  /**
   * Weights with no positive entry are refused before any draw. Otherwise the
   * five shuffles are made, and the machine is refused when fewer than one
   * or more than five rows are asked for. A built machine has five reels,
   * each a permutation of the base strip drawn from the one generator in
   * turn, the ten standard paylines, the default paytable and the asked-for
   * rows.
   */
  lemma FactoryMeaning(weights: Weights, rows: int, seed: int)
    ensures var f := FactorySpec(weights, rows, seed);
      var base := Expand(weights);
      && ((forall k :: 0 <= k < |weights| ==> weights[k].1 <= 0) ==> f == FactoryRun(Err(EmptyReelStrip), seed))
      && (base != [] ==>
            && f.seed == ShuffleStart(seed, |base| - 1, ReelCount)
            && (rows <= 0 ==> f.result == Err(VisibleRowsNotPositive))
            && (rows > ReelCount ==> f.result == Err(TooFewReels))
            && (0 < rows <= ReelCount <==> f.result.Ok?))
      && (f.result.Ok? ==>
            var c := f.result.value;
            && base != []
            && c.paylines == Paylines10 && c.paytable == DefaultPaytable && c.visibleRows == rows
            && |c.reels| == ReelCount
            && forall i :: 0 <= i < ReelCount ==>
                 && c.reels[i] == Shuffle(base, ShuffleStart(seed, |base| - 1, i)).strip
                 && |c.reels[i]| == |base|
                 && multiset(c.reels[i]) == multiset(base))
  {
    var base := Expand(weights);
    ExpandLength(weights);
    if base != [] {
      ShuffleReelsMeaning(base, seed, ReelCount);
      var run := ShuffleReels(base, seed, ReelCount);
      forall i | 0 <= i < ReelCount
        ensures |run.reels[i]| == |base|
      {
        assert |multiset(run.reels[i])| == |multiset(base)|;
      }
    }
  }

  /** With the default weights and rows every seed gives a machine, whose strips all hold 100 symbols. */
  lemma DefaultFactorySucceeds(seed: int)
    ensures var f := FactorySpec(DefaultSymbolWeights, DefaultVisibleRows, seed);
      && f.result.Ok?
      && |f.result.value.reels| == ReelCount
      && (forall i :: 0 <= i < ReelCount ==> |f.result.value.reels[i]| == 100)
      && f.seed == Advance(seed, 495)
  {
    DefaultWeightsTotal();
    FactoryMeaning(DefaultSymbolWeights, DefaultVisibleRows, seed);
  }

  /** The five shuffles, drawing in turn from the one generator. */
  method BuildReels(base: Strip, rng: SeededRng) returns (reels: seq<Strip>)
    modifies rng
    ensures ReelsRun(reels, rng.seed) == ShuffleReels(base, old(rng.seed), ReelCount)
  {
    reels := [];
    for i := 0 to ReelCount
      invariant ReelsRun(reels, rng.seed) == ShuffleReels(base, old(rng.seed), i)
    {
      var s := ShuffleStrip(base, rng);
      reels := reels + [s];
    }
  }

  /** The configuration a built machine holds, or the error that stopped the build. */
  function ConfigResult(r: Result<SlotMachine, Error>): Result<MachineConfig, Error>
  {
    match r
    case Ok(m) => Ok(m.config)
    case Err(e) => Err(e)
  }

  /** The build once the generator is chosen: base strip, shuffles, machine. */
  method Build(weights: Weights, rows: int, rng: SeededRng) returns (r: Result<SlotMachine, Error>)
    modifies rng
    ensures FactoryRun(ConfigResult(r), rng.seed) == FactorySpec(weights, rows, old(rng.seed))
    ensures r.Ok? ==> fresh(r.value) && r.value.rng == rng && r.value.Valid()
  {
    var base := BuildReelStrip(weights);
    if base.Err? {
      return Err(base.error);
    }
    var reels := BuildReels(base.value, rng);
    r := SlotMachine.Create(MachineConfig(reels, Paylines10, DefaultPaytable, rows), rng);
  }

  /**
   * `createSlotMachine`: a given generator is used before a given seed, and
   * a seed before the fallback generator; shuffles and later spins all draw
   * from the chosen one.
   */
  method CreateSlotMachine(config: FactoryConfig, fallback: SeededRng) returns (r: Result<SlotMachine, Error>)
    modifies if config.rng.Some? then {config.rng.value} else {fallback}
    ensures config.rng.Some? ==>
      && FactoryRun(ConfigResult(r), config.rng.value.seed) == FactorySpec(WeightsOf(config), RowsOf(config), old(config.rng.value.seed))
      && (r.Ok? ==> r.value.rng == config.rng.value)
    ensures config.rng.None? && config.seed.Some? ==>
      && ConfigResult(r) == FactorySpec(WeightsOf(config), RowsOf(config), config.seed.value).result
      && (r.Ok? ==> fresh(r.value.rng) && r.value.rng.seed == FactorySpec(WeightsOf(config), RowsOf(config), config.seed.value).seed)
      && unchanged(fallback)
    ensures config.rng.None? && config.seed.None? ==>
      && FactoryRun(ConfigResult(r), fallback.seed) == FactorySpec(WeightsOf(config), RowsOf(config), old(fallback.seed))
      && (r.Ok? ==> r.value.rng == fallback)
    ensures r.Ok? ==> fresh(r.value) && r.value.Valid()
  {
    var rng: SeededRng;
    if config.rng.Some? {
      rng := config.rng.value;
    } else if config.seed.Some? {
      rng := new SeededRng(config.seed.value);
    } else {
      rng := fallback;
    }
    r := Build(WeightsOf(config), RowsOf(config), rng);
  }

  /** `createDeterministicSlotMachine(seed)`: the build with only the seed given. */
  method CreateDeterministicSlotMachine(seed: int) returns (r: Result<SlotMachine, Error>)
    ensures r.Ok?
    ensures ConfigResult(r) == FactorySpec(DefaultSymbolWeights, DefaultVisibleRows, seed).result
    ensures fresh(r.value) && fresh(r.value.rng) && r.value.Valid()
    ensures r.value.rng.seed == Advance(seed, 495)
  {
    var rng := new SeededRng(seed);
    r := Build(WeightsOf(FactoryConfig(None, None, None, Some(seed))), RowsOf(FactoryConfig(None, None, None, Some(seed))), rng);
    DefaultFactorySucceeds(seed);
  }
}
