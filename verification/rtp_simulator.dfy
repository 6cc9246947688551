/**
 * Return-to-player simulation: a run of spins with a fixed bet, its totals,
 * return percentage and hit rate, and the average return over several runs.
 *
 * The simulator uses a machine only through its spin. The reference
 * functions are therefore stated for any spin function `spin(seed, bet)`
 * (the outcome and the generator state after it), their properties for any
 * spin function with the matching property, and the `SpinContract` lemmas
 * show that a machine's own spin has those properties.
 *
 * Percentages are exact rationals here; the source computes them in
 * floating point.
 */
module RtpSimulator {
  import opened Types
  import opened Rng
  import opened Paytables
  import opened Machine
  import Paylines

  datatype SimulationResult = SimulationResult(rtp: real, totalBet: int, totalReturn: int, spins: int, wins: int, hitRate: real)

  /** The running sums of a simulation. */
  datatype Tally = Tally(totalBet: int, totalReturn: int, wins: int)

  /** The outcome of the first spins of a simulation, with the generator state after them. */
  datatype TallyRun = TallyRun(result: Result<Tally, Error>, seed: int)

  /** The sums after `n` spins with bet `bet`, from generator state `seed`; a failing spin ends the run. */
  function TallyUpTo(spin: (int, int) -> SpinRun, bet: int, seed: int, n: nat): TallyRun
  {
    if n == 0 then TallyRun(Ok(Tally(0, 0, 0)), seed)
    else
      var prev := TallyUpTo(spin, bet, seed, n - 1);
      if prev.result.Err? then prev
      else
        var run := spin(prev.seed, bet);
        match run.result
        case Err(e) => TallyRun(Err(e), run.seed)
        case Ok(res) => TallyRun(Ok(AddSpin(prev.result.value, bet, res.totalWin)), run.seed)
  }

  /** One loop iteration: the bet is staked, the win returned, and a positive win counted. */
  function AddSpin(t: Tally, bet: int, win: int): Tally
  {
    Tally(t.totalBet + bet, t.totalReturn + win, if win > 0 then t.wins + 1 else t.wins)
  }

  /** One more spin: a failure ends the run with the spin's error, a success adds the spin to the sums. */
  lemma TallyNext(spin: (int, int) -> SpinRun, bet: int, seed: int, n: nat, t: Tally, before: int, r: Result<SpinResult, Error>, after: int)
    requires TallyUpTo(spin, bet, seed, n) == TallyRun(Ok(t), before)
    requires SpinRun(r, after) == spin(before, bet)
    ensures r.Err? ==> TallyUpTo(spin, bet, seed, n + 1) == TallyRun(Err(r.error), after)
    ensures r.Ok? ==> TallyUpTo(spin, bet, seed, n + 1) == TallyRun(Ok(AddSpin(t, bet, r.value.totalWin)), after)
  {
  }

  lemma {:induction false} TallyErrStays(spin: (int, int) -> SpinRun, bet: int, seed: int, k: nat, n: nat)
    requires k <= n
    requires TallyUpTo(spin, bet, seed, k).result.Err?
    ensures TallyUpTo(spin, bet, seed, n) == TallyUpTo(spin, bet, seed, k)
  {
    if n > k {
      TallyErrStays(spin, bet, seed, k, n - 1);
    }
  }

  /** The result record built from the sums. */
  function Finish(t: Tally, spins: int): SimulationResult
  {
    var rtp := if t.totalBet > 0 then (t.totalReturn as real / t.totalBet as real) * 100.0 else 0.0;
    var hitRate := if spins > 0 then (t.wins as real / spins as real) * 100.0 else 0.0;
    SimulationResult(rtp, t.totalBet, t.totalReturn, spins, t.wins, hitRate)
  }

  /** The outcome of a whole simulation, with the generator state after it. */
  datatype SimRun = SimRun(result: Result<SimulationResult, Error>, seed: int)

  /** `simulateRTP(machine, spins, bet)` as a function of the machine's spin and the generator state. */
  function SimulateSpec(spin: (int, int) -> SpinRun, seed: int, spins: int, bet: int): SimRun
  {
    if spins <= 0 then SimRun(Err(SpinsNotPositive), seed)
    else if bet <= 0 then SimRun(Err(SimulationBetNotPositive), seed)
    else
      var t := TallyUpTo(spin, bet, seed, spins);
      match t.result
      case Err(e) => SimRun(Err(e), t.seed)
      case Ok(sums) => SimRun(Ok(Finish(sums, spins)), t.seed)
  }

  // Properties of a spin function that the simulation's properties rest on.

  /** A successful spin steps the generator `steps` times. */
  ghost predicate StepsPerSpin(spin: (int, int) -> SpinRun, steps: nat)
  {
    forall seed, bet :: spin(seed, bet).result.Ok? ==> spin(seed, bet).seed == Advance(seed, steps)
  }

  /** A successful spin never wins a negative amount. */
  ghost predicate NoNegativeWin(spin: (int, int) -> SpinRun)
  {
    forall seed, bet :: spin(seed, bet).result.Ok? ==> spin(seed, bet).result.value.totalWin >= 0
  }

  /** A spin with a positive bet from a non-negative state succeeds. */
  ghost predicate SucceedsFromNonNegative(spin: (int, int) -> SpinRun)
  {
    forall seed, bet :: seed >= 0 && bet > 0 ==> spin(seed, bet).result.Ok?
  }

  /** A spin with a positive bet draws as a spin with bet one does, and wins the bet times as much. */
  ghost predicate WinScalesWithBet(spin: (int, int) -> SpinRun)
  {
    forall seed, bet :: bet > 0 ==>
      && spin(seed, bet).seed == spin(seed, 1).seed
      && (spin(seed, bet).result.Ok? <==> spin(seed, 1).result.Ok?)
      && (spin(seed, bet).result.Ok? ==> spin(seed, bet).result.value.totalWin == bet * spin(seed, 1).result.value.totalWin)
  }

  lemma MulStep(n: int, k: int)
    ensures (n - 1) * k + k == n * k
  {
  }

  /** After `n` successful spins the stake is `n * bet` and between 0 and `n` spins won. */
  lemma {:induction false} TallyCounts(spin: (int, int) -> SpinRun, bet: int, seed: int, n: nat)
    ensures var t := TallyUpTo(spin, bet, seed, n);
      t.result.Ok? ==> t.result.value.totalBet == n * bet && 0 <= t.result.value.wins <= n
  {
    if n > 0 {
      TallyCounts(spin, bet, seed, n - 1);
      MulStep(n, bet);
    }
  }

  /** After `n` successful spins the generator has made `steps` steps per spin. */
  lemma {:induction false} TallySteps(spin: (int, int) -> SpinRun, bet: int, seed: int, n: nat, steps: nat)
    requires StepsPerSpin(spin, steps)
    ensures var t := TallyUpTo(spin, bet, seed, n);
      t.result.Ok? ==> t.seed == Advance(seed, n * steps)
  {
    if n > 0 {
      TallySteps(spin, bet, seed, n - 1, steps);
      var prev := TallyUpTo(spin, bet, seed, n - 1);
      var run := spin(prev.seed, bet);
      if prev.result.Ok? && run.result.Ok? {
        AdvanceRounds(seed, steps, n);
      }
    }
  }

  /** When no spin wins a negative amount, the total return is never negative. */
  lemma {:induction false} TallyReturnNonNegative(spin: (int, int) -> SpinRun, bet: int, seed: int, n: nat)
    requires NoNegativeWin(spin)
    ensures var t := TallyUpTo(spin, bet, seed, n);
      t.result.Ok? ==> t.result.value.totalReturn >= 0
  {
    if n > 0 {
      TallyReturnNonNegative(spin, bet, seed, n - 1);
    }
  }

  /** From a non-negative state with a positive bet, every run of spins succeeds. */
  lemma {:induction false} TallySucceeds(spin: (int, int) -> SpinRun, bet: int, seed: int, n: nat, steps: nat)
    requires StepsPerSpin(spin, steps) && SucceedsFromNonNegative(spin)
    requires seed >= 0 && bet > 0
    ensures TallyUpTo(spin, bet, seed, n).result.Ok?
  {
    if n > 0 {
      TallySucceeds(spin, bet, seed, n - 1, steps);
      TallySteps(spin, bet, seed, n - 1, steps);
      AdvanceInRange(seed, (n - 1) * steps);
    }
  }

  /** The sums of a run with bet `bet` are those of a run with bet one, stake and return scaled. */
  predicate ScaledTally(a: Tally, b: Tally, bet: int)
  {
    a.totalBet == bet * b.totalBet && a.totalReturn == bet * b.totalReturn && a.wins == b.wins
  }

  lemma SignOfProduct(k: int, x: int)
    requires k > 0
    ensures k * x > 0 <==> x > 0
  {
    if x > 0 {
      assert k * x >= x;
    } else {
      assert k * x <= 0;
    }
  }

  lemma AddSpinScales(a: Tally, b: Tally, bet: int, wa: int, wb: int)
    requires bet > 0 && ScaledTally(a, b, bet) && wa == bet * wb
    ensures ScaledTally(AddSpin(a, bet, wa), AddSpin(b, 1, wb), bet)
  {
    SignOfProduct(bet, wb);
    assert bet * b.totalBet + bet == bet * (b.totalBet + 1);
    assert bet * b.totalReturn + bet * wb == bet * (b.totalReturn + wb);
  }

  /**
   * The bet does not change which spins win: runs with any positive bet and
   * with a bet of one end in the same generator state, count the same
   * winning spins, and the stake and the return scale with the bet.
   */
  lemma {:induction false} TallyScalesWithBet(spin: (int, int) -> SpinRun, bet: int, seed: int, n: nat)
    requires WinScalesWithBet(spin) && bet > 0
    ensures var a := TallyUpTo(spin, bet, seed, n);
      var b := TallyUpTo(spin, 1, seed, n);
      && a.seed == b.seed
      && (a.result.Ok? <==> b.result.Ok?)
      && (a.result.Ok? ==> ScaledTally(a.result.value, b.result.value, bet))
  {
    if n > 0 {
      TallyScalesWithBet(spin, bet, seed, n - 1);
      var pa := TallyUpTo(spin, bet, seed, n - 1);
      var pb := TallyUpTo(spin, 1, seed, n - 1);
      if pa.result.Ok? {
        var ra := spin(pa.seed, bet);
        var rb := spin(pb.seed, 1);
        if ra.result.Ok? {
          AddSpinScales(pa.result.value, pb.result.value, bet, ra.result.value.totalWin, rb.result.value.totalWin);
        }
      }
    }
  }

  lemma RatioScales(k: int, x: int, y: int)
    requires k > 0 && y > 0
    ensures (k * x) as real / (k * y) as real == x as real / y as real
  {
    assert (k * x) as real == k as real * x as real;
    assert (k * y) as real == k as real * y as real;
  }

  lemma HitRateBounds(wins: int, spins: int)
    requires 0 <= wins <= spins && spins > 0
    ensures 0.0 <= (wins as real / spins as real) * 100.0 <= 100.0
  {
    assert wins as real / spins as real <= 1.0;
  }

  /**
   * A simulation refuses a non-positive spin count, then a non-positive bet.
   * Its result reports the requested spin count, a stake of `spins * bet`,
   * between 0 and `spins` winning spins, a hit rate between 0 and 100
   * percent and the return as a percentage of the stake.
   */
  lemma SimulationMeaning(spin: (int, int) -> SpinRun, seed: int, spins: int, bet: int)
    ensures spins <= 0 ==> SimulateSpec(spin, seed, spins, bet) == SimRun(Err(SpinsNotPositive), seed)
    ensures spins > 0 && bet <= 0 ==> SimulateSpec(spin, seed, spins, bet) == SimRun(Err(SimulationBetNotPositive), seed)
    ensures var s := SimulateSpec(spin, seed, spins, bet);
      s.result.Ok? ==>
        && spins > 0 && bet > 0
        && s.result.value.spins == spins
        && s.result.value.totalBet == spins * bet
        && 0 <= s.result.value.wins <= spins
        && 0.0 <= s.result.value.hitRate <= 100.0
        && s.result.value.rtp == (s.result.value.totalReturn as real / (spins * bet) as real) * 100.0
  {
    if spins > 0 && bet > 0 {
      TallyCounts(spin, bet, seed, spins);
      var t := TallyUpTo(spin, bet, seed, spins);
      if t.result.Ok? {
        MulPositive(spins, bet);
        HitRateBounds(t.result.value.wins, spins);
      }
    }
  }

  /** A simulation leaves the generator `steps` steps per spin further on. */
  lemma SimulationSteps(spin: (int, int) -> SpinRun, seed: int, spins: int, bet: int, steps: nat)
    requires StepsPerSpin(spin, steps)
    ensures var s := SimulateSpec(spin, seed, spins, bet);
      s.result.Ok? ==> s.seed == Advance(seed, spins * steps)
  {
    if spins > 0 && bet > 0 {
      TallySteps(spin, bet, seed, spins, steps);
    }
  }

  /** When no spin wins a negative amount, the return percentage is never negative. */
  lemma SimulationRtpNonNegative(spin: (int, int) -> SpinRun, seed: int, spins: int, bet: int)
    requires NoNegativeWin(spin)
    ensures var s := SimulateSpec(spin, seed, spins, bet);
      s.result.Ok? ==> s.result.value.totalReturn >= 0 && s.result.value.rtp >= 0.0
  {
    if spins > 0 && bet > 0 {
      TallyReturnNonNegative(spin, bet, seed, spins);
      TallyCounts(spin, bet, seed, spins);
      MulPositive(spins, bet);
    }
  }

  /** With valid arguments, a spin that succeeds from any non-negative state gives a complete simulation. */
  lemma SimulationSucceeds(spin: (int, int) -> SpinRun, seed: int, spins: int, bet: int, steps: nat)
    requires StepsPerSpin(spin, steps) && SucceedsFromNonNegative(spin)
    requires seed >= 0 && spins > 0 && bet > 0
    ensures SimulateSpec(spin, seed, spins, bet).result.Ok?
  {
    TallySucceeds(spin, bet, seed, spins, steps);
  }

  /**
   * The return percentage and the hit rate do not depend on the bet: a
   * simulation with any positive bet reports the same figures as one with a
   * bet of one, and leaves the generator in the same state.
   */
  lemma SimulationIndependentOfBet(spin: (int, int) -> SpinRun, seed: int, spins: int, bet: int)
    requires WinScalesWithBet(spin) && bet > 0
    ensures var a := SimulateSpec(spin, seed, spins, bet);
      var b := SimulateSpec(spin, seed, spins, 1);
      && a.seed == b.seed
      && (a.result.Ok? <==> b.result.Ok?)
      && (a.result.Ok? ==>
            a.result.value.rtp == b.result.value.rtp &&
            a.result.value.hitRate == b.result.value.hitRate &&
            a.result.value.wins == b.result.value.wins)
  {
    if spins > 0 {
      TallyScalesWithBet(spin, bet, seed, spins);
      TallyCounts(spin, 1, seed, spins);
      var ta := TallyUpTo(spin, bet, seed, spins);
      var tb := TallyUpTo(spin, 1, seed, spins);
      if ta.result.Ok? {
        RatioScales(bet, tb.result.value.totalReturn, tb.result.value.totalBet);
        MulPositive(bet, spins);
      }
    }
  }

  /** `simulateRTP`: the argument checks, then one spin per iteration, summing stake and return. */
  method SimulateRtp(machine: SlotMachine, spins: int, bet: int) returns (r: Result<SimulationResult, Error>)
    requires machine.Valid()
    modifies machine.rng
    ensures SimRun(r, machine.rng.seed) == SimulateSpec(machine.spinFn, old(machine.rng.seed), spins, bet)
  {
    if spins <= 0 {
      return Err(SpinsNotPositive);
    }
    if bet <= 0 {
      return Err(SimulationBetNotPositive);
    }
    var totalBet, totalReturn, wins := 0, 0, 0;
    for i := 0 to spins
      invariant TallyUpTo(machine.spinFn, bet, old(machine.rng.seed), i) == TallyRun(Ok(Tally(totalBet, totalReturn, wins)), machine.rng.seed)
    {
      ghost var sums, before := Tally(totalBet, totalReturn, wins), machine.rng.seed;
      totalBet := totalBet + bet;
      var result := machine.Spin(bet);
      TallyNext(machine.spinFn, bet, old(machine.rng.seed), i, sums, before, result, machine.rng.seed);
      if result.Err? {
        TallyErrStays(machine.spinFn, bet, old(machine.rng.seed), i + 1, spins);
        return Err(result.error);
      }
      totalReturn := totalReturn + result.value.totalWin;
      if result.value.totalWin > 0 {
        wins := wins + 1;
      }
    }
    r := Ok(Finish(Tally(totalBet, totalReturn, wins), spins));
  }

  /** The sum of the return percentages of `n` consecutive simulations, with the generator state after them. */
  datatype SumRun = SumRun(result: Result<real, Error>, seed: int)

  function RtpSumUpTo(spin: (int, int) -> SpinRun, seed: int, spins: int, bet: int, n: nat): SumRun
  {
    if n == 0 then SumRun(Ok(0.0), seed)
    else
      var prev := RtpSumUpTo(spin, seed, spins, bet, n - 1);
      if prev.result.Err? then prev
      else
        var sim := SimulateSpec(spin, prev.seed, spins, bet);
        match sim.result
        case Err(e) => SumRun(Err(e), sim.seed)
        case Ok(s) => SumRun(Ok(prev.result.value + s.rtp), sim.seed)
  }

  lemma RtpSumNext(spin: (int, int) -> SpinRun, seed: int, spins: int, bet: int, n: nat, total: real, before: int, r: Result<SimulationResult, Error>, after: int)
    requires RtpSumUpTo(spin, seed, spins, bet, n) == SumRun(Ok(total), before)
    requires SimRun(r, after) == SimulateSpec(spin, before, spins, bet)
    ensures r.Err? ==> RtpSumUpTo(spin, seed, spins, bet, n + 1) == SumRun(Err(r.error), after)
    ensures r.Ok? ==> RtpSumUpTo(spin, seed, spins, bet, n + 1) == SumRun(Ok(total + r.value.rtp), after)
  {
  }

  lemma {:induction false} RtpSumErrStays(spin: (int, int) -> SpinRun, seed: int, spins: int, bet: int, k: nat, n: nat)
    requires k <= n
    requires RtpSumUpTo(spin, seed, spins, bet, k).result.Err?
    ensures RtpSumUpTo(spin, seed, spins, bet, n) == RtpSumUpTo(spin, seed, spins, bet, k)
  {
    if n > k {
      RtpSumErrStays(spin, seed, spins, bet, k, n - 1);
    }
  }

  /** `calculateExpectedRTP` as a function: the mean return percentage over `iterations` simulations. */
  function ExpectedRtpSpec(spin: (int, int) -> SpinRun, seed: int, iterations: int, spins: int, bet: int): SumRun
  {
    if iterations <= 0 then SumRun(Err(IterationsNotPositive), seed)
    else
      var s := RtpSumUpTo(spin, seed, spins, bet, iterations);
      match s.result
      case Err(_) => s
      case Ok(total) => SumRun(Ok(total / iterations as real), s.seed)
  }

  /**
   * The argument errors: no iterations is refused first; otherwise the first
   * simulation refuses a non-positive spin count and then a non-positive bet.
   */
  lemma ExpectedRtpErrors(spin: (int, int) -> SpinRun, seed: int, iterations: int, spins: int, bet: int)
    ensures iterations <= 0 ==> ExpectedRtpSpec(spin, seed, iterations, spins, bet).result == Err(IterationsNotPositive)
    ensures iterations > 0 && spins <= 0 ==> ExpectedRtpSpec(spin, seed, iterations, spins, bet).result == Err(SpinsNotPositive)
    ensures iterations > 0 && spins > 0 && bet <= 0 ==> ExpectedRtpSpec(spin, seed, iterations, spins, bet).result == Err(SimulationBetNotPositive)
  {
    if iterations > 0 && (spins <= 0 || bet <= 0) {
      RtpSumErrStays(spin, seed, spins, bet, 1, iterations);
    }
  }

  lemma {:induction false} RtpSumNonNegative(spin: (int, int) -> SpinRun, seed: int, spins: int, bet: int, n: nat)
    requires NoNegativeWin(spin)
    ensures var s := RtpSumUpTo(spin, seed, spins, bet, n);
      s.result.Ok? ==> s.result.value >= 0.0
  {
    if n > 0 {
      RtpSumNonNegative(spin, seed, spins, bet, n - 1);
      var prev := RtpSumUpTo(spin, seed, spins, bet, n - 1);
      if prev.result.Ok? {
        SimulationRtpNonNegative(spin, prev.seed, spins, bet);
      }
    }
  }

  /** When no spin wins a negative amount, the mean return percentage is never negative. */
  lemma ExpectedRtpNonNegative(spin: (int, int) -> SpinRun, seed: int, iterations: int, spins: int, bet: int)
    requires NoNegativeWin(spin)
    ensures var s := ExpectedRtpSpec(spin, seed, iterations, spins, bet);
      s.result.Ok? ==> s.result.value >= 0.0
  {
    if iterations > 0 {
      RtpSumNonNegative(spin, seed, spins, bet, iterations);
    }
  }

  lemma {:induction false} RtpSumIndependentOfBet(spin: (int, int) -> SpinRun, seed: int, spins: int, bet: int, n: nat)
    requires WinScalesWithBet(spin) && bet > 0
    ensures var a := RtpSumUpTo(spin, seed, spins, bet, n);
      var b := RtpSumUpTo(spin, seed, spins, 1, n);
      a.seed == b.seed && (a.result.Ok? <==> b.result.Ok?) && (a.result.Ok? ==> a.result.value == b.result.value)
  {
    if n > 0 {
      RtpSumIndependentOfBet(spin, seed, spins, bet, n - 1);
      var prev := RtpSumUpTo(spin, seed, spins, bet, n - 1);
      if prev.result.Ok? {
        SimulationIndependentOfBet(spin, prev.seed, spins, bet);
      }
    }
  }

  /** The mean return percentage does not depend on the bet. */
  lemma ExpectedRtpIndependentOfBet(spin: (int, int) -> SpinRun, seed: int, iterations: int, spins: int, bet: int)
    requires WinScalesWithBet(spin) && bet > 0
    ensures var a := ExpectedRtpSpec(spin, seed, iterations, spins, bet);
      var b := ExpectedRtpSpec(spin, seed, iterations, spins, 1);
      a.seed == b.seed && (a.result.Ok? <==> b.result.Ok?) && (a.result.Ok? ==> a.result.value == b.result.value)
  {
    if iterations > 0 {
      RtpSumIndependentOfBet(spin, seed, spins, bet, iterations);
    }
  }

  /** `calculateExpectedRTP`: the iteration check, then one simulation per iteration, then the mean. */
  method CalculateExpectedRtp(machine: SlotMachine, iterations: int, spinsPerIteration: int, bet: int) returns (r: Result<real, Error>)
    requires machine.Valid()
    modifies machine.rng
    ensures SumRun(r, machine.rng.seed) == ExpectedRtpSpec(machine.spinFn, old(machine.rng.seed), iterations, spinsPerIteration, bet)
  {
    if iterations <= 0 {
      return Err(IterationsNotPositive);
    }
    var totalRtp := 0.0;
    for i := 0 to iterations
      invariant RtpSumUpTo(machine.spinFn, old(machine.rng.seed), spinsPerIteration, bet, i) == SumRun(Ok(totalRtp), machine.rng.seed)
    {
      ghost var before := machine.rng.seed;
      var result := SimulateRtp(machine, spinsPerIteration, bet);
      RtpSumNext(machine.spinFn, old(machine.rng.seed), spinsPerIteration, bet, i, totalRtp, before, result, machine.rng.seed);
      if result.Err? {
        RtpSumErrStays(machine.spinFn, old(machine.rng.seed), spinsPerIteration, bet, i + 1, iterations);
        return Err(result.error);
      }
      totalRtp := totalRtp + result.value.rtp;
    }
    r := Ok(totalRtp / iterations as real);
  }

  // A machine's own spin has the properties above.

  /** A machine's successful spin steps the generator once per reel. */
  lemma SpinContractSteps(m: SlotMachine)
    requires m.Valid()
    ensures StepsPerSpin(m.spinFn, |m.config.reels|)
  {
    forall seed, bet | m.spinFn(seed, bet).result.Ok?
      ensures m.spinFn(seed, bet).seed == Advance(seed, |m.config.reels|)
    {
      assert m.spinFn(seed, bet) == SpinSpec(m.config, seed, bet);
      SpinDraws(m.config, seed, bet);
    }
  }

  /** With a non-negative paytable a machine's spin never wins a negative amount. */
  lemma SpinContractNoNegativeWin(m: SlotMachine)
    requires m.Valid() && NonNegative(m.config.paytable)
    ensures NoNegativeWin(m.spinFn)
  {
    forall seed, bet | m.spinFn(seed, bet).result.Ok?
      ensures m.spinFn(seed, bet).result.value.totalWin >= 0
    {
      assert m.spinFn(seed, bet) == SpinSpec(m.config, seed, bet);
      SpinTotalNonNegative(m.config, seed, bet);
    }
  }

  /** A machine with no empty strip and well-formed paylines spins successfully from any non-negative state. */
  lemma SpinContractSucceeds(m: SlotMachine)
    requires m.Valid()
    requires forall i :: 0 <= i < |m.config.reels| ==> |m.config.reels[i]| > 0
    requires Paylines.WellFormed(m.config.paylines, |m.config.reels|, m.config.visibleRows)
    ensures SucceedsFromNonNegative(m.spinFn)
  {
    forall seed, bet | seed >= 0 && bet > 0
      ensures m.spinFn(seed, bet).result.Ok?
    {
      assert m.spinFn(seed, bet) == SpinSpec(m.config, seed, bet);
      SpinSucceeds(m.config, seed, bet);
    }
  }

  /** A machine's win scales with the bet. */
  lemma SpinContractScales(m: SlotMachine)
    requires m.Valid()
    ensures WinScalesWithBet(m.spinFn)
  {
    forall seed, bet | bet > 0
      ensures m.spinFn(seed, bet).seed == m.spinFn(seed, 1).seed
      ensures m.spinFn(seed, bet).result.Ok? <==> m.spinFn(seed, 1).result.Ok?
      ensures m.spinFn(seed, bet).result.Ok? ==> m.spinFn(seed, bet).result.value.totalWin == bet * m.spinFn(seed, 1).result.value.totalWin
    {
      assert m.spinFn(seed, bet) == SpinSpec(m.config, seed, bet);
      assert m.spinFn(seed, 1) == SpinSpec(m.config, seed, 1);
      SpinScalesWithBet(m.config, seed, bet);
    }
  }
}
