/**
 * Shared value types of the slot machine engine: the closed set of symbols,
 * the shape of one spin's outcome, and the failure-carrying wrappers that
 * stand for the exceptions the engine throws.
 */
module Types {

  /** The symbol identities a reel can show. */
  datatype Symbol = Bank | Orange | Grape | Bell | Bar | Seven | Diamond | Wild | Handcuffs

  datatype Option<+T> = None | Some(value: T)

  /** Either a value or the error an operation threw. */
  datatype Result<+T, +E> = Ok(value: T) | Err(error: E)

  /** The errors the domain layer throws, one constructor per message. */
  datatype Error =
    | MaxNotPositive                 // "max must be greater than 0"
    | EmptyReelStrip                 // "ReelStrip cannot be empty"
    | EmptyStrip                     // "Strip cannot be empty"
    | VisibleRowsNotPositive         // "visibleRows must be greater than 0"
    | SymbolIndexUndefined(index: int)
    | PaylineLengthMismatch          // "Payline length must match matrix column count"
    | PaylineSymbolUndefined(reelIndex: int, rowIndex: int)
    | NoReels                        // "At least one reel is required"
    | NoPaylines                     // "At least one payline is required"
    | TooFewReels                    // "Reel strip length must be >= visibleRows"
    | SpinBetNotPositive             // "Bet must be greater than 0"
    | SpinsNotPositive               // "spins must be greater than 0"
    | SimulationBetNotPositive       // "bet must be greater than 0"
    | IterationsNotPositive          // "iterations must be greater than 0"

  /** One column per reel, top row first. */
  type Matrix = seq<seq<Symbol>>

  datatype LineWin = LineWin(paylineIndex: int, symbol: Symbol, count: int, payout: int)

  datatype ReelSpinInfo = ReelSpinInfo(reelIndex: int, startIndex: int)

  datatype SpinResult = SpinResult(matrix: Matrix, wins: seq<LineWin>, totalWin: int, reels: seq<ReelSpinInfo>)
}
