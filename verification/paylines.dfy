/**
 * Paylines: the fixed table of ten row-index lines and the lookup of the
 * symbols that one line crosses on the visible matrix.
 */
module Paylines {
  import opened Types

  /** One row index per reel. */
  type Payline = seq<int>

  const Paylines10: seq<Payline> := [
    [0, 0, 0, 0, 0],
    [1, 1, 1, 1, 1],
    [2, 2, 2, 2, 2],
    [3, 3, 3, 3, 3],
    [0, 1, 2, 1, 0],
    [2, 1, 0, 1, 2],
    [1, 2, 1, 2, 1],
    [2, 1, 2, 1, 2],
    [0, 1, 0, 1, 0],
    [3, 2, 3, 2, 3]
  ]

  /** Every line has `reels` entries, each a row index in [0, rows). */
  predicate WellFormed(lines: seq<Payline>, reels: int, rows: int)
  {
    forall p :: 0 <= p < |lines| ==> |lines[p]| == reels && forall i :: 0 <= i < |lines[p]| ==> 0 <= lines[p][i] < rows
  }

  /** The ten lines all have length 5 and use rows 0 to 3 only. */
  lemma Paylines10Shape()
    ensures |Paylines10| == 10
    ensures forall p :: 0 <= p < |Paylines10| ==> |Paylines10[p]| == 5
    ensures WellFormed(Paylines10, 5, 4)
  {
  }

  /** The symbols the line crosses on the first `n` reels, or the failure of the first missing cell. */
  function SymbolsUpTo(matrix: Matrix, payline: Payline, n: nat): Result<seq<Symbol>, Error>
    requires n <= |payline| == |matrix|
  {
    if n == 0 then Ok([])
    else match SymbolsUpTo(matrix, payline, n - 1)
      case Err(e) => Err(e)
      case Ok(v) =>
        var row := payline[n - 1];
        if 0 <= row < |matrix[n - 1]| then Ok(v + [matrix[n - 1][row]])
        else Err(PaylineSymbolUndefined(n - 1, row))
  }

  /** `getSymbolsOnPayline` as a function of its arguments. */
  function SymbolsOnPayline(matrix: Matrix, payline: Payline): Result<seq<Symbol>, Error>
  {
    if |payline| != |matrix| then Err(PaylineLengthMismatch)
    else SymbolsUpTo(matrix, payline, |payline|)
  }

  lemma {:induction false} SymbolsUpToErrStays(matrix: Matrix, payline: Payline, k: nat, n: nat)
    requires k <= n <= |payline| == |matrix|
    requires SymbolsUpTo(matrix, payline, k).Err?
    ensures SymbolsUpTo(matrix, payline, n) == SymbolsUpTo(matrix, payline, k)
  {
    if n > k {
      SymbolsUpToErrStays(matrix, payline, k, n - 1);
    }
  }

  lemma {:induction false} SymbolsUpToMeaning(matrix: Matrix, payline: Payline, n: nat)
    requires n <= |payline| == |matrix|
    ensures SymbolsUpTo(matrix, payline, n).Ok? <==> forall i :: 0 <= i < n ==> 0 <= payline[i] < |matrix[i]|
    ensures SymbolsUpTo(matrix, payline, n).Ok? ==>
      var v := SymbolsUpTo(matrix, payline, n).value;
      |v| == n && forall i :: 0 <= i < n ==> v[i] == matrix[i][payline[i]]
  {
    if n > 0 {
      SymbolsUpToMeaning(matrix, payline, n - 1);
    }
  }

  /** When the first bad cell is on reel `k`, the lookup fails naming that reel and row. */
  lemma {:induction false} SymbolsUpToFirstBad(matrix: Matrix, payline: Payline, n: nat, k: nat)
    requires k < n <= |payline| == |matrix|
    requires forall i :: 0 <= i < k ==> 0 <= payline[i] < |matrix[i]|
    requires !(0 <= payline[k] < |matrix[k]|)
    ensures SymbolsUpTo(matrix, payline, n) == Err(PaylineSymbolUndefined(k, payline[k]))
  {
    SymbolsUpToMeaning(matrix, payline, k);
    SymbolsUpToErrStays(matrix, payline, k + 1, n);
  }

  /**
   * The lookup succeeds exactly when the line has one entry per reel and each
   * entry is a row of that reel; then symbol `i` is `matrix[i][payline[i]]`.
   */
  lemma SymbolsOnPaylineMeaning(matrix: Matrix, payline: Payline)
    ensures |payline| != |matrix| ==> SymbolsOnPayline(matrix, payline) == Err(PaylineLengthMismatch)
    ensures SymbolsOnPayline(matrix, payline).Ok? <==>
      |payline| == |matrix| && forall i :: 0 <= i < |payline| ==> 0 <= payline[i] < |matrix[i]|
    ensures SymbolsOnPayline(matrix, payline).Ok? ==>
      var v := SymbolsOnPayline(matrix, payline).value;
      |v| == |payline| && forall i :: 0 <= i < |payline| ==> v[i] == matrix[i][payline[i]]
  {
    if |payline| == |matrix| {
      SymbolsUpToMeaning(matrix, payline, |payline|);
    }
  }

  /** `getSymbolsOnPayline`: an index loop that pushes one symbol per reel. */
  method GetSymbolsOnPayline(matrix: Matrix, payline: Payline) returns (r: Result<seq<Symbol>, Error>)
    ensures r == SymbolsOnPayline(matrix, payline)
    ensures |payline| != |matrix| ==> r == Err(PaylineLengthMismatch)
    ensures r.Ok? <==> |payline| == |matrix| && forall i :: 0 <= i < |payline| ==> 0 <= payline[i] < |matrix[i]|
    ensures r.Ok? ==> |r.value| == |payline| && forall i :: 0 <= i < |payline| ==> r.value[i] == matrix[i][payline[i]]
    ensures r.Err? && |payline| == |matrix| ==>
      exists k :: 0 <= k < |payline| && !(0 <= payline[k] < |matrix[k]|) && r.error == PaylineSymbolUndefined(k, payline[k]) &&
        forall i :: 0 <= i < k ==> 0 <= payline[i] < |matrix[i]|
  {
    if |payline| != |matrix| {
      return Err(PaylineLengthMismatch);
    }
    var symbols: seq<Symbol> := [];
    for reelIndex := 0 to |payline|
      invariant SymbolsUpTo(matrix, payline, reelIndex) == Ok(symbols)
    {
      var row := payline[reelIndex];
      var reel := matrix[reelIndex];
      if !(0 <= row < |reel|) {
        SymbolsUpToMeaning(matrix, payline, reelIndex);
        SymbolsUpToErrStays(matrix, payline, reelIndex + 1, |payline|);
        return Err(PaylineSymbolUndefined(reelIndex, row));
      }
      symbols := symbols + [reel[row]];
    }
    r := Ok(symbols);
    SymbolsUpToMeaning(matrix, payline, |payline|);
  }
}
