# Slot machine engine — a verified Dafny model

This project models the game-logic core of a browser slot machine: the
seeded random generator, reel strip construction, shuffling and the visible
window, paylines and the paytable, the spin evaluator, the RTP (return to
player) simulator, the machine factory, the generic finite state machine,
the game state (balance, bet, lifecycle, observers) and the game controller
that runs one spin cycle around the external spin provider.

Each source file is one Dafny module:

| module | file | source |
|---|---|---|
| `Types` | types.dfy | src/domain/types.ts (symbols, spin result, the thrown errors as an `Error` datatype) |
| `Rng` | rng.dfy | src/domain/rng.ts |
| `ReelStrips` | reel_strip.dfy | src/domain/reel-strip.ts |
| `Paylines` | paylines.dfy | src/domain/paylines.ts |
| `Paytables` | paytable.dfy | src/domain/paytable.ts |
| `Machine` | slot_machine.dfy | src/domain/slot-machine.ts |
| `RtpSimulator` | rtp_simulator.dfy | src/domain/rtp-simulator.ts |
| `Factory` | slot_machine_factory.dfy | src/domain/slot-machine-factory.ts |
| `Observers` | observers.dfy | the observer sets of src/core/fsm.ts and src/application/game-state.ts |
| `Fsm` | fsm.dfy | src/core/fsm.ts |
| `Game` | game_state.dfy | src/application/game-state.ts |
| `Controller` | game_controller.dfy | src/application/game-controller.ts |

How the model is built:

- **Exceptions are values.** A call that throws returns `Err(e)` of a
  `Result`, or `Some(e)` of an `Option` when there is no other result. `e` is
  one constructor per error message.
- **Loops are methods proved against functions.** Every loop of the source
  (strip building, the Fisher–Yates shuffle, the visible window, payline
  reading, matrix generation, win evaluation, the simulator's accumulators,
  the factory's five shuffles, observer notification) is a `method` with a
  loop. Its `ensures` ties the result, and the new generator state, to a
  function defined by prefix recursion (`GenerateUpTo`, `WinsUpTo`,
  `TallyUpTo`, …). The source's promises are lemmas about those functions.
- **Objects with fields stay objects.** `SeededRng`, `SlotMachine`,
  `FiniteStateMachine`, `GameState` and `GameController` are classes whose
  methods update their fields.
- **Observers are recorded.** An observer is an `ObserverId`. Each observer
  set is an insertion-ordered sequence without duplicates, as a JavaScript
  `Set` iterates. Each notification appends its calls to a log (`log` in the
  state machine, `events` in the game state). The game state's subscription
  to its own machine is the observer `Bridge`.
- **Game state mutations are pure functions on a snapshot.** Each mutator
  is specified by a function on a `GameData` snapshot (balance, bet, state).
  The function returns an `Effect`: the new snapshot and the list of changes
  it announces. `GameState.Applied(e)` says the object now holds `e.data`,
  and that every game observer and the bridge received exactly the calls
  for `e.changes`.
- **`spin` is split at its one `await`.** `BeginSpin` runs from the guards
  up to the provider call. `SettleSpin` runs from the provider's outcome to
  the end; it takes `Some(result)`, or `None` when the provider rejected.
  `Spin` runs both in a row. Between the two halves any other controller
  call can run, which is how the double-spin guard is stated
  (`SecondSpinDeclined`).
- **The slot machine's spin is a function of the seed.** `SlotMachine`
  carries a ghost function `spinFn`. `Valid()` ties it to `Machine.SpinSpec`
  for the machine's own configuration. The simulator's specifications are
  generic over any spin function. The lemmas `SpinContract*` discharge
  their assumptions (draws per spin, non-negative wins, success, scaling
  with the bet) for a real machine.

In a few places the code behaves otherwise than a caller might expect; the model follows the code:

- **Reel count versus visible rows.** A caller might expect every strip to have to
  be at least `visibleRows` long. The constructor compares the number of
  reels instead (src/domain/slot-machine.ts:38). Short strips are accepted, and
  the window wraps (`Machine.ShortStripsAccepted`). A configuration with
  fewer reels than rows is refused whatever its strip lengths
  (`Machine.LongStripsFewReelsRejected`).
- **Recovery after a provider failure.** A caller might expect a provider
  failure to put the session back to idle. The catch block calls the
  checked `setState('idle')`, which the lifecycle refuses from spinning. The
  call therefore rejects, the state stays spinning, and the bet stays
  debited (`Controller.ProviderFailureStaysSpinning`). When the bet clamp
  throws after a spin without a win, the same checked call is refused from
  idle (`Controller.SettleNoWin`).
- **Non-negative draws.** A caller might expect `nextInt` never to be
  negative. With
  a negative seed (which `setSeed` and the constructor accept), JavaScript's
  `%` keeps the sign. The draw then lies in `[-max, max)`, and the model
  states that range (`Rng.NextInt`).
- **Unvalidated bets.** The game state's constructor accepts any balance
  and bet. A negative bet passes the controller's balance guard, is then
  refused by the debit, and the recovery is refused from spinning
  (`Controller.NegativeBetStaysSpinning`).

## Model

| member | source | states |
|---|---|---|
| Rng.Advance | src/domain/rng.ts:36-39 | the generator state after `n` calls of `next()`, each one LCG step; `AdvanceAdd`, `AdvanceRounds` and `AdvanceInRange` are proved about it |
| Rng.JsRem | src/domain/rng.ts:37 | JavaScript's `%`: the remainder takes the sign of the dividend and lies strictly within the modulus |
| Rng.NextSeed | src/domain/rng.ts:36-39 | one LCG step from a non-negative seed lands in [0, 233280); from any seed, strictly within (-233280, 233280) |
| Rng.Scale | src/domain/rng.ts:41-46 | `floor(seed / 233280 * max)` is in [0, max) for a state in [0, 233280), and in [-max, max) for any reachable state |
| Rng.ScaleBounds | src/domain/rng.ts:45 | the integer form of the scaled draw stays within the bound for the state ranges above |
| Rng.NextInt | src/domain/rng.ts:41-46 | `max <= 0` fails with the "max must be greater than 0" error, and only then; a draw takes exactly one step, and from a non-negative seed lies in [0, max) |
| Rng.AdvanceInRange | src/domain/rng.ts:36-39 | from a non-negative seed every later state is non-negative, and below the modulus after at least one step |
| Rng.AdvanceAdd | src/domain/rng.ts:36-39 | m steps followed by n steps are m + n steps |
| Rng.AdvanceRounds | src/domain/rng.ts:36-39 | (n-1) rounds of k steps followed by one more round of k steps are n·k steps |
| Rng.FloorOfFraction | src/domain/rng.ts:45 | the floating formula `floor(seed / 233280 * max)`, read over exact rationals, equals the integer division `(seed * max) / 233280` |
| Rng.SeededRng.constructor | src/domain/rng.ts:22-24 | the state is the given seed |
| Rng.SeededRng.Next | src/domain/rng.ts:36-39 | the state takes one LCG step; the result is the new state over the modulus, in [0, 1) from a non-negative state |
| Rng.SeededRng.NextInt | src/domain/rng.ts:41-46 | `max <= 0` fails and leaves the state alone; otherwise one step, and the result is the scaled new state, in [0, max) from a non-negative state |
| Rng.SeededRng.GetSeed | src/domain/rng.ts:48-50 | returns the state |
| Rng.SeededRng.SetSeed | src/domain/rng.ts:52-54 | the state becomes the given seed, so a following `GetSeed` returns it |
| Rng.Draws | src/domain/rng.ts:41-46 | a run of draws yields one result per bound |
| Rng.DrawsStep | src/domain/rng.ts:41-46 | the k-th draw of a run is `nextInt` from the state the first k draws left, and a failed draw does not step |
| Rng.DrawAll | src/domain/rng.ts:41-46 | a generator making a run of `nextInt` calls returns exactly `Draws` of its starting state |
| Rng.SameSeedSameDraws | src/domain/rng.ts:22-46 | two generators built with the same seed return identical draw sequences |
| ReelStrips.ExpandUpTo | src/domain/reel-strip.ts:9-18 | the strip the outer loop has built after the first `n` keys: each earlier key's run of `weight` copies in key order, nothing for a weight of zero or less; `ExpandUpToLength` and `ExpandUpToCount` are proved about it |
| ReelStrips.Expand | src/domain/reel-strip.ts:9-18 | the strip after all keys, which `buildReelStrip` returns when it is not empty; `ExpandLength`, `OccursExactlyWeight` and `OnStripIffPositiveWeight` are proved about it |
| ReelStrips.PositiveTotal | src/domain/reel-strip.ts:11-17 | the number of pushes the loops make: the sum of the positive weights, the reference for the strip's length and for the empty-strip check at line 20 (`PositiveTotalZero`) |
| ReelStrips.WeightOf | src/domain/reel-strip.ts:11-17 | the number of pushes of one symbol: the sum of its positive weights, the reference for its count in the strip (`ExpandUpToCount` and `WeightOfDistinct`) |
| ReelStrips.Shuffle | src/domain/reel-strip.ts:27-43 | `shuffleStrip` on a copy of the strip from a generator state: the swaps of `ShuffleFrom` from the last index down to 1; `ShuffleIsPermutation` proves it a permutation after `length - 1` draws |
| ReelStrips.VisibleUpTo | src/domain/reel-strip.ts:58-71 | the window the loop has built after `n` rows: element i is `strip[(start + i) % length]` with JavaScript's remainder, and the first negative index fails with its value (`VisibleUpToWraps` and `VisibleNegativeStart`) |
| ReelStrips.Visible | src/domain/reel-strip.ts:45-72 | `extractVisibleSymbols`: the empty-strip error, then the rows error, then the wrapped window of `rows` symbols (`VisibleWraps`) |
| ReelStrips.Repeat | src/domain/reel-strip.ts:11-17 | `weight` copies of one symbol, none for a weight of zero or less |
| ReelStrips.ExpandUpToLength | src/domain/reel-strip.ts:9-18 | the strip built from the first n weights has the sum of their positive weights as its length |
| ReelStrips.RepeatCount | src/domain/reel-strip.ts:11-17 | a run of copies holds its symbol exactly `weight` times and no other symbol |
| ReelStrips.ExpandUpToCount | src/domain/reel-strip.ts:9-18 | each symbol occurs as often as the positive weights given to it |
| ReelStrips.WeightOfDistinct | src/domain/reel-strip.ts:9-18 | with distinct keys, a symbol's total weight is its own positive weight |
| ReelStrips.WeightOfPositive | src/domain/reel-strip.ts:11-13 | a symbol's total is positive exactly when some entry gives it a positive weight |
| ReelStrips.PositiveTotalZero | src/domain/reel-strip.ts:20-22 | the total of positive weights is zero exactly when no weight is positive |
| ReelStrips.OccursExactlyWeight | src/domain/reel-strip.ts:9-18 | each key of the weight map occurs exactly its weight times in the strip, or not at all for a weight of zero or less |
| ReelStrips.OnStripIffPositiveWeight | src/domain/reel-strip.ts:11-13 | a symbol is on the strip exactly when it has a positive weight |
| ReelStrips.ExpandLength | src/domain/reel-strip.ts:9-22 | the strip's length is the sum of the positive weights, and it is empty exactly when no weight is positive |
| ReelStrips.BuildReelStrip | src/domain/reel-strip.ts:6-25 | the nested loops build the key-order expansion; with no positive weight the call fails with "ReelStrip cannot be empty", and only then |
| ReelStrips.Swap | src/domain/reel-strip.ts:33-40 | swapping two positions exchanges them, keeps every other position and keeps the multiset |
| ReelStrips.ShuffleFrom | src/domain/reel-strip.ts:30-42 | the down-counting swaps from index i keep the length and the multiset and take exactly i draws |
| ReelStrips.ShuffleIsPermutation | src/domain/reel-strip.ts:27-43 | the shuffle is a permutation of its input and makes exactly `length - 1` draws |
| ReelStrips.ShuffleStrip | src/domain/reel-strip.ts:27-43 | the in-place Fisher–Yates loop on a copy yields exactly `Shuffle` of the generator's starting state, leaves the generator after its draws, and returns a permutation |
| ReelStrips.VisibleUpToErrStays | src/domain/reel-strip.ts:58-71 | once the window loop has failed, later positions keep that failure |
| ReelStrips.VisibleUpToWraps | src/domain/reel-strip.ts:58-71 | from a non-negative start, element i of the window is `strip[(start + i) % length]` |
| ReelStrips.VisibleWraps | src/domain/reel-strip.ts:45-72 | with a non-negative start and positive rows, the window has exactly `visibleRows` symbols, wrapping around the strip |
| ReelStrips.VisibleNegativeStart | src/domain/reel-strip.ts:60-66 | a start whose JavaScript remainder is negative reads an undefined index and fails with that index |
| ReelStrips.VisibleExample | src/domain/reel-strip.ts:45-72 | strip [A,B,C,D,E] with start 3 and 4 rows gives [D,E,A,B] |
| ReelStrips.ExtractVisibleSymbols | src/domain/reel-strip.ts:45-72 | an empty strip fails with "Strip cannot be empty", rows ≤ 0 with "visibleRows must be greater than 0"; otherwise the loop returns the wrapped window |
| Paylines.SymbolsUpTo | src/domain/paylines.ts:26-45 | the symbols the loop has collected after `n` reels, `matrix[i][payline[i]]` in reel order, or the error for the first reel whose row index has no symbol (`SymbolsUpToMeaning` and `SymbolsUpToFirstBad`) |
| Paylines.SymbolsOnPayline | src/domain/paylines.ts:16-48 | `getSymbolsOnPayline`: the length-mismatch error first, then the symbols along the whole line (`SymbolsOnPaylineMeaning`) |
| Paylines.Paylines10Shape | src/domain/paylines.ts:3-14 | the constant `Paylines10` is `PAYLINES_10` entry for entry; the lemma proves it is ten lines of five row indices, each in 0..3 |
| Paylines.SymbolsUpToErrStays | src/domain/paylines.ts:26-45 | once a read has failed, later columns keep that failure |
| Paylines.SymbolsUpToMeaning | src/domain/paylines.ts:26-45 | the first n reads succeed exactly when each row index is inside its column, and element i is `matrix[i][payline[i]]` |
| Paylines.SymbolsUpToFirstBad | src/domain/paylines.ts:38-42 | the failure names the first column whose row index is outside it |
| Paylines.SymbolsOnPaylineMeaning | src/domain/paylines.ts:16-48 | a length mismatch fails with its own error; otherwise the call succeeds exactly when every index is in range, with element i read from column i |
| Paylines.GetSymbolsOnPayline | src/domain/paylines.ts:16-48 | the loop returns the payline's symbols, fails on a length mismatch, and otherwise fails at the first out-of-range row with that column and row |
| Paytables.PayoutForSymbol | src/domain/paytable.ts:57-73 | 0 for a count outside 3..5, for a symbol without an entry and for an entry without that count; otherwise the table value |
| Paytables.PayoutNonNegative | src/domain/paytable.ts:57-73 | a table without negative entries never pays a negative amount |
| Paytables.DefaultPaytableShape | src/domain/paytable.ts:9-55 | the constant `DefaultPaytable` is `DEFAULT_PAYTABLE` entry for entry; the lemma proves every symbol has entries for 3, 4 and 5, strictly increasing and positive |
| Paytables.DefaultPaytableNonNegative | src/domain/paytable.ts:9-55 | the default table has no negative entry |
| Paytables.DefaultPayoutExamples | src/domain/paytable.ts:9-73 | SEVEN 5 pays 300, BELL 3/4/5 pay 15/40/100, and counts 2 and 6 pay 0 |
| Machine.GenerateUpTo | src/domain/slot-machine.ts:66-85 | matrix generation over the first `n` reels: one `nextInt(strip length)` draw per reel, the window at the drawn start appended to the matrix with its `ReelSpinInfo`, and the first failing draw or window ending the run (`GenerateMeaning` and `GenerateSucceeds`) |
| Machine.DrawnStart | src/domain/slot-machine.ts:77 | the start index reel `i` draws: the scaled value of the state after `i + 1` steps, used by `GenerateMeaning` to name each reel's start |
| Machine.LineWinFor | src/domain/slot-machine.ts:108-146 | `evaluatePayline`: no win for no symbols, a leading run shorter than three, or a zero payout; otherwise the first symbol, its run length and payout times bet (`LineWinMeaning`) |
| Machine.LineWinAt | src/domain/slot-machine.ts:97-98 | the win payline `p` makes on a matrix, the reference that `WinsMeaning` and `WinsComplete` compare each recorded win against |
| Machine.WinsUpTo | src/domain/slot-machine.ts:87-106 | `evaluateWins` over the first `n` paylines: each line's win appended in payline order when there is one, and a payline read error ending the evaluation (`WinsMeaning`, `WinsComplete` and `WinsErrStays`) |
| Machine.TotalPayout | src/domain/slot-machine.ts:56 | the `reduce` sum of the payouts from 0, left to right (`TotalPayoutAppend` and `TotalPayoutNonNegative`) |
| Machine.SpinSpec | src/domain/slot-machine.ts:49-64 | `spin(bet)` from a configuration and a generator state: the bet error without a draw, then the matrix, the wins at that bet and their total, with the generator state after the draws (`SpinDraws`, `SpinWins` and `SpinScalesWithBet`) |
| Machine.ConfigError | src/domain/slot-machine.ts:26-40 | a configuration is accepted exactly when it has reels, paylines, positive rows and at least as many reels as rows; the checks fail in the source's order |
| Machine.ShortStripsAccepted | src/domain/slot-machine.ts:38 | five one-symbol strips with four rows are accepted: strip length is not checked |
| Machine.LongStripsFewReelsRejected | src/domain/slot-machine.ts:38 | three long strips with four rows are refused: the reel count is compared with the rows |
| Machine.GenerateErrStays | src/domain/slot-machine.ts:70-82 | once a column has failed, later reels keep that failure |
| Machine.GenerateMeaning | src/domain/slot-machine.ts:66-85 | the matrix takes one draw per reel, in reel order; reel i records its index and its start, and column i is that reel's window from the start |
| Machine.GenerateSucceeds | src/domain/slot-machine.ts:66-85 | from a non-negative seed with positive rows and non-empty strips, every start is within its strip and every column has `visibleRows` symbols |
| Machine.LeadingRun | src/domain/slot-machine.ts:118-128 | the leading run is the longest prefix of symbols equal to the first; the symbol after it differs |
| Machine.LeadingRunUnique | src/domain/slot-machine.ts:118-128 | any prefix of equal symbols followed by a different one is the leading run |
| Machine.LineWinMeaning | src/domain/slot-machine.ts:108-146 | a line wins exactly when its leading run is at least 3 and the table pays it; the win records the line, the first symbol, the run and `payout × bet` |
| Machine.RunStopsAtFirstMismatch | src/domain/slot-machine.ts:118-128 | BELL BELL BELL GRAPE BELL wins a 3-count BELL; the trailing BELL does not count |
| Machine.TwoNeverWin | src/domain/slot-machine.ts:118-132 | a run of two never wins |
| Machine.WinsErrStays | src/domain/slot-machine.ts:90-105 | once reading a payline has failed, later paylines keep that failure |
| Machine.WinsMeaning | src/domain/slot-machine.ts:87-106 | each recorded win is the win of its payline, indices strictly increase (at most one per line, in payline order) |
| Machine.WinsComplete | src/domain/slot-machine.ts:87-106 | every winning payline is recorded |
| Machine.TotalPayoutAppend | src/domain/slot-machine.ts:56 | the total of one more win grows by its payout |
| Machine.TotalPayoutNonNegative | src/domain/slot-machine.ts:56 | wins that pay nothing negative total at least 0 |
| Machine.LineWinScalesWithBet | src/domain/slot-machine.ts:140-145 | a line's win at bet b is its win at bet 1 with the payout times b |
| Machine.TotalPayoutScales | src/domain/slot-machine.ts:56 | payouts scaled by b total b times as much |
| Machine.WinsScaleWithBet | src/domain/slot-machine.ts:87-106 | the wins at bet b are the wins at bet 1 with each payout times b |
| Machine.WinsNonNegative | src/domain/slot-machine.ts:130-145 | with a non-negative table and a positive bet, every recorded payout is positive and the total is at least 0 |
| Machine.SpinDraws | src/domain/slot-machine.ts:49-64 | a successful spin has a positive bet, takes one draw per reel, records each reel's start, builds each column from it and has `totalWin` equal to the sum of the line payouts |
| Machine.SpinSucceeds | src/domain/slot-machine.ts:49-85 | a valid machine with well-formed paylines spins successfully from a non-negative seed for any positive bet |
| Machine.WinsSucceed | src/domain/slot-machine.ts:87-106 | paylines inside the matrix are all read without failure |
| Machine.SpinWins | src/domain/slot-machine.ts:49-64 | a spin's wins are exactly the winning paylines of its matrix, once each, in payline order |
| Machine.SpinScalesWithBet | src/domain/slot-machine.ts:49-64 | the same seed gives the same matrix and starts at any bet, and `totalWin` scales linearly with the bet |
| Machine.SpinTotalNonNegative | src/domain/slot-machine.ts:49-64 | with a non-negative table, every payout is positive and `totalWin` is at least 0 |
| Machine.SlotMachine.constructor | src/domain/slot-machine.ts:25-47 | an accepted configuration and its generator are stored |
| Machine.SlotMachine.Create | src/domain/slot-machine.ts:25-47 | construction fails with the first failing check's error, and otherwise yields a valid machine on the given generator |
| Machine.SlotMachine.Spin | src/domain/slot-machine.ts:49-64 | a bet ≤ 0 fails without drawing; otherwise the result and the generator's new state are `SpinSpec` of the old state, one draw per reel |
| Machine.SlotMachine.GenerateMatrix | src/domain/slot-machine.ts:66-85 | the loop yields `GenerateUpTo` of the generator's old state, and leaves the generator where it says |
| Machine.SlotMachine.EvaluateWins | src/domain/slot-machine.ts:87-106 | the loop over paylines yields `WinsUpTo` over all paylines |
| Machine.SlotMachine.EvaluatePayline | src/domain/slot-machine.ts:108-146 | the counting loop yields the leading-run win of `LineWinFor` |
| Machine.SlotMachine.GetReelCount | src/domain/slot-machine.ts:148-150 | at least one reel, and at least as many as the visible rows |
| Machine.SlotMachine.GetVisibleRows | src/domain/slot-machine.ts:152-154 | positive and at most the reel count |
| Machine.SlotMachine.GetPaylineCount | src/domain/slot-machine.ts:156-158 | at least one payline |
| RtpSimulator.TallyUpTo | src/domain/rtp-simulator.ts:29-38 | the loop's three sums after `n` spins, each spin made from the state the previous one left, and a failing spin ending the run with its error (`TallyNext`, `TallyCounts` and `TallySteps`) |
| RtpSimulator.AddSpin | src/domain/rtp-simulator.ts:30-37 | one iteration of the loop: the bet added to the stake, the win to the return, and the win counter raised only for a positive win (`AddSpinScales`) |
| RtpSimulator.Finish | src/domain/rtp-simulator.ts:40-50 | the result record: `rtp` as return over stake times 100 (0 for no stake) and `hitRate` as wins over spins times 100 (0 for no spins), over exact reals (`HitRateBounds` and `RatioScales`) |
| RtpSimulator.SimulateSpec | src/domain/rtp-simulator.ts:12-51 | `simulateRTP`: the spins error, then the bet error, then the tally of `spins` spins and its result record (`SimulationMeaning`, `SimulationSteps` and `SimulationIndependentOfBet`) |
| RtpSimulator.RtpSumUpTo | src/domain/rtp-simulator.ts:63-68 | the sum of the `rtp` of the first `n` simulations, each from the state the previous one left, a failing simulation ending the sum (`RtpSumNext` and `RtpSumNonNegative`) |
| RtpSimulator.ExpectedRtpSpec | src/domain/rtp-simulator.ts:53-71 | `calculateExpectedRTP`: the iterations error, then the summed `rtp` divided by the number of iterations (`ExpectedRtpErrors` and `ExpectedRtpIndependentOfBet`) |
| RtpSimulator.TallyNext | src/domain/rtp-simulator.ts:29-38 | the tally after one more spin adds that spin, or stops at its error |
| RtpSimulator.TallyErrStays | src/domain/rtp-simulator.ts:29-38 | a failed spin ends the tally with its error |
| RtpSimulator.TallyCounts | src/domain/rtp-simulator.ts:29-38 | after n spins `totalBet` is n·bet and the winning spins are between 0 and n |
| RtpSimulator.TallySteps | src/domain/rtp-simulator.ts:29-38 | n spins of k draws each advance the generator by n·k steps |
| RtpSimulator.TallyReturnNonNegative | src/domain/rtp-simulator.ts:32-33 | with no negative win, `totalReturn` is at least 0 |
| RtpSimulator.TallySucceeds | src/domain/rtp-simulator.ts:29-38 | spins that succeed from any non-negative seed never stop the tally |
| RtpSimulator.AddSpinScales | src/domain/rtp-simulator.ts:29-38 | adding a spin at bet b keeps the tally b times the tally at bet 1 |
| RtpSimulator.TallyScalesWithBet | src/domain/rtp-simulator.ts:29-38 | the tally at bet b is the tally at bet 1 with wagered and returned totals times b and the same win count |
| RtpSimulator.RatioScales | src/domain/rtp-simulator.ts:40 | scaling both totals by the bet leaves the RTP ratio unchanged |
| RtpSimulator.HitRateBounds | src/domain/rtp-simulator.ts:41 | the hit rate is between 0 and 100 |
| RtpSimulator.SimulationMeaning | src/domain/rtp-simulator.ts:12-51 | spins ≤ 0 and bet ≤ 0 fail before any spin; a result has `totalBet = spins·bet`, 0 ≤ wins ≤ spins, a hit rate in [0, 100] and `rtp = totalReturn / totalBet · 100` |
| RtpSimulator.SimulationSteps | src/domain/rtp-simulator.ts:29-38 | a simulation of s spins of k draws each advances the generator by s·k steps: `spin` is called exactly s times |
| RtpSimulator.SimulationRtpNonNegative | src/domain/rtp-simulator.ts:32-40 | with no negative win, `totalReturn` and `rtp` are at least 0 |
| RtpSimulator.SimulationSucceeds | src/domain/rtp-simulator.ts:12-51 | positive spins and bet from a non-negative seed always yield a result |
| RtpSimulator.SimulationIndependentOfBet | src/domain/rtp-simulator.ts:12-51 | the same seed gives the same `rtp`, `hitRate` and win count at any bet |
| RtpSimulator.SimulateRtp | src/domain/rtp-simulator.ts:12-51 | the accumulator loop over the machine's spins returns `SimulateSpec` of the generator's old state and leaves the generator where it says |
| RtpSimulator.RtpSumNext | src/domain/rtp-simulator.ts:63-68 | the sum after one more run adds that run's `rtp`, or stops at its error |
| RtpSimulator.RtpSumErrStays | src/domain/rtp-simulator.ts:63-68 | a failed run ends the sum with its error |
| RtpSimulator.ExpectedRtpErrors | src/domain/rtp-simulator.ts:53-71 | iterations ≤ 0 fails first; then the simulation's own errors for spins and bet |
| RtpSimulator.RtpSumNonNegative | src/domain/rtp-simulator.ts:63-68 | with no negative win, the summed RTP is at least 0 |
| RtpSimulator.ExpectedRtpNonNegative | src/domain/rtp-simulator.ts:53-71 | with no negative win, the expected RTP is at least 0 |
| RtpSimulator.RtpSumIndependentOfBet | src/domain/rtp-simulator.ts:63-68 | the summed RTP does not depend on the bet |
| RtpSimulator.ExpectedRtpIndependentOfBet | src/domain/rtp-simulator.ts:53-71 | the expected RTP does not depend on the bet |
| RtpSimulator.CalculateExpectedRtp | src/domain/rtp-simulator.ts:53-71 | the loop of `iterations` simulations returns `ExpectedRtpSpec` of the generator's old state |
| RtpSimulator.SpinContractSteps | src/domain/slot-machine.ts:49-85 | a valid machine's spin takes one draw per reel when it succeeds |
| RtpSimulator.SpinContractNoNegativeWin | src/domain/slot-machine.ts:87-146 | a machine with a non-negative table never wins a negative amount |
| RtpSimulator.SpinContractSucceeds | src/domain/slot-machine.ts:49-85 | a valid machine with non-empty strips and well-formed paylines spins successfully from every non-negative seed |
| RtpSimulator.SpinContractScales | src/domain/slot-machine.ts:49-146 | a machine's wins scale linearly with the bet |
| Factory.WeightsOf | src/domain/slot-machine-factory.ts:29 | the given weights, or the default weights when none are given |
| Factory.RowsOf | src/domain/slot-machine-factory.ts:30 | the given row count, or 4 when none is given |
| Factory.ShuffleReels | src/domain/slot-machine-factory.ts:43 | `Array.from({ length: n })` of shuffles of the one base strip, each from the generator state the previous shuffle left (`ShuffleReelsSteps` and `ShuffleReelsMeaning`) |
| Factory.FactorySpec | src/domain/slot-machine-factory.ts:41-51 | `createSlotMachine` once the weights, rows and generator are chosen: the empty-strip error before any draw, five shuffles, then the machine constructor's checks over the ten paylines and the default paytable (`FactoryMeaning` and `DefaultFactorySucceeds`) |
| Factory.DefaultWeightsTotal | src/domain/slot-machine-factory.ts:9-19 | the constant `DefaultSymbolWeights` is `DEFAULT_SYMBOL_WEIGHTS` in its key order; the lemma proves the symbols are distinct and the weights sum to 100, so the base strip has 100 symbols |
| Factory.DefaultStripCounts | src/domain/slot-machine-factory.ts:9-19 | the base strip holds 14 SEVEN, 8 DIAMOND, 2 WILD and 10 BANK |
| Factory.ShuffleReelsSteps | src/domain/slot-machine-factory.ts:43 | n shuffles give n reels and take `length - 1` draws each from the one shared generator |
| Factory.ShuffleReelsMeaning | src/domain/slot-machine-factory.ts:43 | reel i is the shuffle of the base strip from the state the first i shuffles left, and a permutation of the base strip |
| Factory.FactoryMeaning | src/domain/slot-machine-factory.ts:28-52 | no positive weight fails with "ReelStrip cannot be empty" before any draw; otherwise five shuffles are drawn, rows ≤ 0 or above 5 fail, and a machine has 5 reels, each a shuffle and permutation of the base strip, `PAYLINES_10`, the default table and the given rows |
| Factory.DefaultFactorySucceeds | src/domain/slot-machine-factory.ts:28-56 | the default weights and 4 rows always build a machine of 5 reels of 100 symbols, after 495 draws |
| Factory.BuildReels | src/domain/slot-machine-factory.ts:43 | the five shuffles on the shared generator return `ShuffleReels` of its old state |
| Factory.Build | src/domain/slot-machine-factory.ts:41-51 | the strip, the shuffles and the constructor give `FactorySpec` of the generator's old state; the machine keeps that generator |
| Factory.CreateSlotMachine | src/domain/slot-machine-factory.ts:28-52 | weights default to the default weights and rows to 4; an explicit generator wins over a seed, a seed gets a new generator, and with neither the given fallback generator is used |
| Factory.CreateDeterministicSlotMachine | src/domain/slot-machine-factory.ts:54-56 | a seed alone always builds the default machine `FactorySpec` gives for it, on a new generator 495 draws on |
| Observers.Subscribed | src/core/fsm.ts:54-56 | `Set.add` on an insertion-ordered set: a new observer goes to the end, a present one changes nothing (`SubscribedMeaning`) |
| Observers.Unsubscribed | src/core/fsm.ts:58-60 | `Set.delete`: the observer is removed and the others keep their order (`UnsubscribedMeaning` and `UnsubscribedNotCalled`) |
| Observers.Announce | src/core/fsm.ts:62-66 | the calls one notification makes: every member, in insertion order, with the same event (`AnnouncedOnce`) |
| Observers.SubscribedMeaning | src/core/fsm.ts:54-56 | subscribing keeps a set, adds exactly the observer, and a second subscribe changes nothing |
| Observers.UnsubscribedMeaning | src/core/fsm.ts:58-60 | unsubscribing removes exactly the observer, keeps the order and a set, and is a no-op for a non-member |
| Observers.UnsubscribedNotCalled | src/core/fsm.ts:58-66 | after an unsubscribe, a notification makes no call to the removed observer |
| Observers.AnnouncedOnce | src/core/fsm.ts:62-66 | a notification calls every member exactly once with the event and no one else |
| Fsm.Allows | src/core/fsm.ts:29-35 | `canTransitionTo`'s table lookup: the target is listed for the source state, and a state with no entry allows nothing; `CanTransitionTo` and `TransitionTo` are stated with it and `Game.LifecycleMeaning` spells it out for the lifecycle |
| Fsm.FiniteStateMachine.constructor | src/core/fsm.ts:19-23 | starts in the initial state with the given table and no observers |
| Fsm.FiniteStateMachine.GetState | src/core/fsm.ts:25-27 | returns the current state |
| Fsm.FiniteStateMachine.CanTransitionTo | src/core/fsm.ts:29-35 | true exactly when the current state has an entry listing the target; false without an entry |
| Fsm.FiniteStateMachine.TransitionTo | src/core/fsm.ts:37-46 | a move the table does not allow throws "Invalid transition" and changes nothing and calls no one; an allowed one sets the state, calls each observer once with (from, to) and returns true, never false |
| Fsm.FiniteStateMachine.ForceTransition | src/core/fsm.ts:48-52 | the state becomes the target whatever the table says, and each observer is called once |
| Fsm.FiniteStateMachine.Subscribe | src/core/fsm.ts:54-56 | the observers become `Subscribed`; state and calls are untouched |
| Fsm.FiniteStateMachine.Unsubscribe | src/core/fsm.ts:58-60 | the observers become `Unsubscribed`; state and calls are untouched |
| Fsm.FiniteStateMachine.NotifyObservers | src/core/fsm.ts:62-66 | the loop calls every observer in subscription order with (from, to) |
| Game.ObserverCalls | src/application/game-state.ts:130-146 | the calls the game observers receive for a list of changes: each change, in order, to every observer in insertion order (`ObserverCallsAppend` and `SingleChangeCalls`) |
| Game.BridgeCalls | src/application/game-state.ts:35-39 | the calls the state machine makes on the game state's own subscription: one per state change and none for balance or bet changes (`BridgeCallsAppend` and `SingleChangeCalls`) |
| Game.UpdateSpec | src/application/game-state.ts:58-61 | `updateBalance`: the balance moves by any signed amount and the new balance is announced once (`BalanceMutators` and `CheckedMutatorsKeepBalance`) |
| Game.IncreaseSpec | src/application/game-state.ts:63-68 | `increaseBalance`: a negative amount is refused, otherwise `updateBalance` (`BalanceMutators` and `IncreaseThenDecrease`) |
| Game.DecreaseSpec | src/application/game-state.ts:70-78 | `decreaseBalance`: a negative amount, then an amount above the balance, is refused; otherwise `updateBalance` with the negated amount (`BalanceMutators` and `IncreaseThenDecrease`) |
| Game.SetBalanceSpec | src/application/game-state.ts:80-86 | `setBalance`: a negative balance is refused; otherwise it is set and announced (`SetterMeaning`) |
| Game.SetBetSpec | src/application/game-state.ts:92-101 | `setBet`: a bet of zero or less, then one above the balance, is refused; otherwise it is set and announced (`SetterMeaning`) |
| Game.DeductSpec | src/application/game-state.ts:107-112 | `deductBet`: refused unless `canPlaceBet` holds, otherwise the bet is taken through `updateBalance` (`DeductMeaning`) |
| Game.SetStateSpec | src/application/game-state.ts:46-48 | `setState` through `transitionTo`: a move outside the lifecycle throws "Invalid transition", an allowed one sets the state and announces the old and new state (`SetStateMeaning` and `LifecycleRound`) |
| Game.LifecycleMeaning | src/application/game-state.ts:28-33 | the constant `Lifecycle` is the table the constructor passes to its state machine; the lemma proves the only moves are idle→spinning, spinning→evaluating, evaluating→showingWin or idle, showingWin→idle |
| Game.ObserverCallsAppend | src/application/game-state.ts:130-146 | the game observers' calls for two lists of changes are the calls for the first, then the second |
| Game.BridgeCallsAppend | src/application/game-state.ts:35-39 | the bridge's calls for two lists of changes are the calls for the first, then the second |
| Game.SingleChangeCalls | src/application/game-state.ts:130-146 | one change is announced once to every game observer, and to the bridge exactly when it is a state change |
| Game.ThenCalls | src/application/game-state.ts:130-146 | the calls of two effects in a row are the calls of each, in order |
| Game.ReachesThen | src/application/game-state.ts:58-146 | two effects applied one after the other are their composition applied at once |
| Game.BalanceMutators | src/application/game-state.ts:58-78 | a negative amount is refused by both mutators; a decrease beyond the balance is refused; otherwise the balance moves by exactly the amount and the new balance is announced once |
| Game.IncreaseThenDecrease | src/application/game-state.ts:63-78 | from a non-negative balance, a decrease undoes an increase of the same amount |
| Game.CheckedMutatorsKeepBalance | src/application/game-state.ts:58-112 | no checked mutator makes a non-negative balance negative, while the unchecked `updateBalance` can |
| Game.SetterMeaning | src/application/game-state.ts:80-101 | `setBalance` refuses a negative value and otherwise sets it; `setBet` refuses b ≤ 0, then b above the balance, and otherwise sets it |
| Game.DeductMeaning | src/application/game-state.ts:103-112 | `deductBet` succeeds exactly when `canPlaceBet` holds, and then takes exactly the bet |
| Game.CanPlaceBetMatchesDecrease | src/application/game-state.ts:103-105 | for an idle state and a non-negative bet, `canPlaceBet` holds exactly when the debit would succeed |
| Game.SetStateMeaning | src/application/game-state.ts:46-48 | `setState` succeeds exactly for a lifecycle move, changes only the state and announces (from, to); a refused move names both states |
| Game.LifecycleRound | src/application/game-state.ts:28-33 | from idle the lifecycle runs spinning, evaluating, showingWin and idle again; spinning cannot go back to idle, and no state moves to itself |
| Game.GameState.constructor | src/application/game-state.ts:23-40 | any balance and bet are taken as given, the state is idle and the machine has the bridge as its only observer |
| Game.GameState.GetState | src/application/game-state.ts:42-44 | returns the machine's state |
| Game.GameState.GetBalance | src/application/game-state.ts:54-56 | returns the balance |
| Game.GameState.GetBet | src/application/game-state.ts:88-90 | returns the bet |
| Game.GameState.GetData | src/application/game-state.ts:114-120 | returns the balance, bet and state snapshot |
| Game.GameState.CanTransitionTo | src/application/game-state.ts:50-52 | true exactly for a lifecycle move from the current state |
| Game.GameState.SetState | src/application/game-state.ts:46-48 | a refused move throws and changes nothing; an allowed one applies `SetStateSpec`: the bridge, then every game observer, hears of it once |
| Game.GameState.UpdateBalance | src/application/game-state.ts:58-61 | adds any signed amount and announces the new balance once |
| Game.GameState.IncreaseBalance | src/application/game-state.ts:63-68 | performs `IncreaseSpec`: an error changes nothing, success applies the effect |
| Game.GameState.DecreaseBalance | src/application/game-state.ts:70-78 | performs `DecreaseSpec` |
| Game.GameState.SetBalance | src/application/game-state.ts:80-86 | performs `SetBalanceSpec` |
| Game.GameState.SetBet | src/application/game-state.ts:92-101 | performs `SetBetSpec`: a refused bet keeps the previous one |
| Game.GameState.CanPlaceBet | src/application/game-state.ts:103-105 | idle and the balance covers the bet |
| Game.GameState.DeductBet | src/application/game-state.ts:107-112 | performs `DeductSpec` |
| Game.GameState.Subscribe | src/application/game-state.ts:122-124 | the game observers become `Subscribed`; nothing else changes |
| Game.GameState.Unsubscribe | src/application/game-state.ts:126-128 | the game observers become `Unsubscribed`; nothing else changes |
| Game.GameState.NotifyChange | src/application/game-state.ts:130-146 | the loop calls every game observer once, in subscription order |
| Controller.Recover | src/application/game-controller.ts:68-72 | the catch block from a snapshot: the checked `setState('idle')`; the call returns `null` when the move is allowed and rejects with the transition error otherwise (`ProviderFailureStaysSpinning`) |
| Controller.BeginSpec | src/application/game-controller.ts:21-44 | `spin` up to its `await`: both guards return `null`, otherwise the move to spinning and the debit of the bet, with the catch block for a refused debit (`SpinGuards` and `AcceptedSpinDebits`) |
| Controller.PayoutSpec | src/application/game-controller.ts:51-63 | the branch after evaluation starts: a positive win is credited and shown, no win goes back to idle, and a throwing call is reported as failed with the effect so far (`SettleWin` and `SettleNoWin`) |
| Controller.ClampedBet | src/application/game-controller.ts:112 | `Math.max(10, Math.floor(balance / 10) * 10)` for a positive balance (`ClampedBetBounds`) |
| Controller.ClampSpec | src/application/game-controller.ts:108-114 | `clampBetToBalance`: a bet above a positive balance is set to the clamped value through the checked `setBet`, anything else is left alone (`ClampMeaning`) |
| Controller.SettleSpec | src/application/game-controller.ts:44-72 | `spin` after its `await`: a provider failure or a throwing step runs the catch block; otherwise evaluating, the payout branch, the clamp and the provider's result (`SettleWin`, `SettleNoWin` and `ProviderFailureStaysSpinning`) |
| Controller.SpinSpec | src/application/game-controller.ts:21-73 | a whole `spin` call for a given provider outcome: `BeginSpec`, then `SettleSpec` from the snapshot it left when it reached the `await` (`WholeSpin` and `NegativeBetStaysSpinning`) |
| Controller.FinishSpec | src/application/game-controller.ts:75-79 | `finishWinPresentation`: a shown win goes back to idle with one state change; any other state is left alone (`FinishMeaning`) |
| Controller.SpinGuards | src/application/game-controller.ts:22-33 | a spin while not idle, or without the balance for the bet, returns null and changes nothing |
| Controller.AcceptedSpinDebits | src/application/game-controller.ts:36-44 | an accepted spin moves to spinning and debits exactly the bet before the provider is called |
| Controller.SecondSpinDeclined | src/application/game-controller.ts:22-44 | while the first spin waits for the provider, a second spin returns null and changes nothing |
| Controller.NegativeBetStaysSpinning | src/application/game-controller.ts:30-71 | a negative bet passes the guard, the debit refuses it, and the recovery is refused from spinning |
| Controller.ProviderFailureStaysSpinning | src/application/game-controller.ts:68-71 | a provider failure leaves the state spinning and the bet debited, and the call rejects with the refused move |
| Controller.ClampedBetBounds | src/application/game-controller.ts:112 | for a balance of at least 10 the clamped bet is the multiple of ten at most the balance and within ten of it; below 10 it is 10, above the balance |
| Controller.ClampMeaning | src/application/game-controller.ts:108-114 | the clamp does nothing unless bet > balance > 0; with a balance of at least 10 it sets the clamped bet; below 10 `setBet` throws |
| Controller.SettleWin | src/application/game-controller.ts:46-72 | a winning result credits exactly the win and ends showing it, with the bet kept, clamped, or, below a balance of 10, the catch moving back to idle |
| Controller.SettleNoWin | src/application/game-controller.ts:58-72 | a result without a win keeps the debited balance and ends idle; a clamp that throws there makes the recovery's idle→idle move fail |
| Controller.WholeSpin | src/application/game-controller.ts:21-73 | an accepted spin ends with balance − bet + win, never negative, showing a win exactly when it paid and returned the result |
| Controller.FinishMeaning | src/application/game-controller.ts:75-79 | the end of the presentation is the lifecycle move showingWin→idle, and nothing in any other state |
| Controller.GameController.constructor | src/application/game-controller.ts:16-19 | a new game state with the given balance and bet, idle, no observers |
| Controller.GameController.Recovery | src/application/game-controller.ts:68-72 | the catch's checked move to idle: null when allowed, otherwise the call rejects with the refused move |
| Controller.GameController.BeginSpin | src/application/game-controller.ts:21-44 | the guards, the move to spinning and the debit apply `BeginSpec` to the old snapshot, with every observer call it implies |
| Controller.GameController.Payout | src/application/game-controller.ts:51-63 | credits and shows a win, or returns to idle, applying `PayoutSpec` and reporting whether a call threw |
| Controller.GameController.ClampBetToBalance | src/application/game-controller.ts:108-114 | performs `ClampSpec` through the checked `setBet` |
| Controller.GameController.RecoverAfter | src/application/game-controller.ts:68-72 | the catch after part of the try block has run applies that part followed by the recovery |
| Controller.GameController.SettleSpin | src/application/game-controller.ts:44-72 | from the provider's outcome to the end, applies `SettleSpec` to the snapshot the first half left |
| Controller.GameController.Spin | src/application/game-controller.ts:21-73 | the whole call applies `SpinSpec`: its reply, final snapshot and every observer call |
| Controller.GameController.FinishWinPresentation | src/application/game-controller.ts:75-79 | applies `FinishSpec`: showingWin→idle, nothing elsewhere |
| Controller.GameController.CanSpin | src/application/game-controller.ts:101-106 | idle and a bet can be placed |
| Controller.GameController.SetBet | src/application/game-controller.ts:89-91 | performs `SetBetSpec`; a refused bet throws to the caller and keeps the previous bet |
| Controller.GameController.GetBalance | src/application/game-controller.ts:81-83 | returns the balance |
| Controller.GameController.GetBet | src/application/game-controller.ts:85-87 | returns the bet |
| Controller.GameController.GetStatus | src/application/game-controller.ts:93-95 | returns the lifecycle state |
| Controller.GameController.GetGameState | src/application/game-controller.ts:97-99 | returns the controller's own game state object |

## Left out

- `DefaultRNG` and the random-generator service draw from `Math.random`. That is ambient entropy with nothing to specify beyond its range. The factory takes a `fallback` generator parameter in its place, for the case with neither a generator nor a seed.
- Floating point: `next()` returns the exact rational `seed / 233280`. `nextInt` is the integer division `(seed * max) / 233280`; `Rng.FloorOfFraction` proves the two agree over exact rationals, so float rounding is not modelled. `rtp`, `hitRate` and the averaged expected RTP are stated over `real`.
- Seeds and money are unbounded integers. JavaScript numbers lose precision above 2^53, and `seed * 9301` can exceed that only for seeds far outside the generator's own range.
- Rng.NextInt: for a negative seed the draw can be negative, as in the code; the model does not claim the non-negative range there.
- The spin provider (src/infrastructure/fake-slot-api.ts): its timers, latency and the `Promise` itself. Its outcome is a parameter of `SettleSpin` and `Spin`.
- What an observer does when called: each call is recorded in a log, and observer exceptions are not modelled.
- Console warnings and errors in the controller.
- The controller's `!transitioned`, `!evaluateTransition`, `!winTransition` and `!idleTransition` branches (src/application/game-controller.ts:37-39,47-49,55-57,60-62). `setState` returns `true` or throws and never returns `false`, so these branches cannot run and are absent from the model.
- Interleavings inside one synchronous call: JavaScript runs each call up to its `await` without interruption, and the model's methods are likewise atomic.
- Rendering, UI, asset loading, configuration and `main.ts`: they are outside the game-logic core.
- Wild symbols: the code evaluates exact symbol equality only, and so does the model.
