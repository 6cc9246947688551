/**
 * The slot machine: configuration checks, one spin (a start index drawn per
 * reel, the visible window of each reel, line evaluation, the total win) and
 * the read-only getters.
 *
 * Every loop of the source is a method proved equal to a reference function
 * (`GenerateUpTo`, `WinsUpTo`, `LineWinFor`); the lemmas state what those
 * functions mean.
 */
module Machine {
  import opened Types
  import opened Rng
  import opened ReelStrips
  import opened Paylines
  import opened Paytables

  /** The configuration a machine is built from; the generator is held by the class. */
  datatype MachineConfig = MachineConfig(reels: seq<Strip>, paylines: seq<Payline>, paytable: Paytable, visibleRows: int)

  /**
   * The constructor's checks, in order. The last check compares the number of
   * reels, not the length of any strip, with the number of visible rows.
   */
  function ConfigError(c: MachineConfig): (e: Option<Error>)
    ensures e == None <==> |c.reels| > 0 && |c.paylines| > 0 && c.visibleRows > 0 && |c.reels| >= c.visibleRows
    ensures |c.reels| == 0 ==> e == Some(NoReels)
    ensures |c.reels| > 0 && |c.paylines| == 0 ==> e == Some(NoPaylines)
    ensures |c.reels| > 0 && |c.paylines| > 0 && c.visibleRows <= 0 ==> e == Some(VisibleRowsNotPositive)
    ensures |c.reels| > 0 && |c.paylines| > 0 && c.visibleRows > 0 && |c.reels| < c.visibleRows ==> e == Some(TooFewReels)
  {
    if |c.reels| == 0 then Some(NoReels)
    else if |c.paylines| == 0 then Some(NoPaylines)
    else if c.visibleRows <= 0 then Some(VisibleRowsNotPositive)
    else if |c.reels| < c.visibleRows then Some(TooFewReels)
    else None
  }

  /** Strips of length one are accepted when there are at least as many reels as rows. */
  lemma ShortStripsAccepted()
    ensures ConfigError(MachineConfig([[Seven], [Seven], [Seven], [Seven], [Seven]], Paylines10, DefaultPaytable, 4)) == None
  {
  }

  /** Three long strips are refused for four rows: there are fewer reels than rows. */
  lemma LongStripsFewReelsRejected(strip: Strip)
    requires |strip| >= 4
    ensures ConfigError(MachineConfig([strip, strip, strip], Paylines10, DefaultPaytable, 4)) == Some(TooFewReels)
  {
  }

  /** The matrix and per-reel draw record built by one matrix generation. */
  datatype Generated = Generated(matrix: Matrix, reels: seq<ReelSpinInfo>)

  /** The outcome of generating the first reels, with the generator state after it. */
  datatype GenRun = GenRun(result: Result<Generated, Error>, seed: int)

  /** Matrix generation over the first `n` reels, from generator state `seed`. */
  function GenerateUpTo(reels: seq<Strip>, rows: int, seed: int, n: nat): GenRun
    requires n <= |reels|
  {
    if n == 0 then GenRun(Ok(Generated([], [])), seed)
    else
      var prev := GenerateUpTo(reels, rows, seed, n - 1);
      if prev.result.Err? then prev
      else match NextInt(prev.seed, |reels[n - 1]|)
        case Err(e) => GenRun(Err(e), prev.seed)
        case Ok(d) =>
          match Visible(reels[n - 1], d.value, rows)
          case Err(e) => GenRun(Err(e), d.seed)
          case Ok(column) =>
            var g := prev.result.value;
            GenRun(Ok(Generated(g.matrix + [column], g.reels + [ReelSpinInfo(n - 1, d.value)])), d.seed)
  }

  lemma {:induction false} GenerateErrStays(reels: seq<Strip>, rows: int, seed: int, k: nat, n: nat)
    requires k <= n <= |reels|
    requires GenerateUpTo(reels, rows, seed, k).result.Err?
    ensures GenerateUpTo(reels, rows, seed, n) == GenerateUpTo(reels, rows, seed, k)
  {
    if n > k {
      GenerateErrStays(reels, rows, seed, k, n - 1);
    }
  }

  /** The start index of reel `i`: a draw on its strip from the state after `i` earlier draws. */
  function DrawnStart(seed: int, i: nat, len: int): int
    requires len > 0
  {
    Scale(Advance(seed, i + 1), len)
  }

  /**
   * A successful generation draws exactly once per reel, in reel order: reel
   * `i` starts at the draw made from the state after `i` earlier draws, its
   * column is the window of that reel at that start, and the generator ends
   * `n` steps further on.
   */
  lemma {:induction false} GenerateMeaning(reels: seq<Strip>, rows: int, seed: int, n: nat)
    requires n <= |reels|
    ensures var run := GenerateUpTo(reels, rows, seed, n);
      run.result.Ok? ==>
        && run.seed == Advance(seed, n)
        && |run.result.value.matrix| == n
        && |run.result.value.reels| == n
        && forall i :: 0 <= i < n ==>
             && |reels[i]| > 0
             && run.result.value.reels[i] == ReelSpinInfo(i, DrawnStart(seed, i, |reels[i]|))
             && Visible(reels[i], run.result.value.reels[i].startIndex, rows) == Ok(run.result.value.matrix[i])
  {
    if n > 0 {
      GenerateMeaning(reels, rows, seed, n - 1);
      var prev := GenerateUpTo(reels, rows, seed, n - 1);
      if prev.result.Ok? {
        var d := NextInt(prev.seed, |reels[n - 1]|);
        if d.Ok? {
          var column := Visible(reels[n - 1], d.value.value, rows);
          if column.Ok? {
            var g := prev.result.value;
            var matrix := g.matrix + [column.value];
            var infos := g.reels + [ReelSpinInfo(n - 1, d.value.value)];
            assert forall i :: 0 <= i < n - 1 ==> matrix[i] == g.matrix[i] && infos[i] == g.reels[i];
            assert d.value.value == DrawnStart(seed, n - 1, |reels[n - 1]|);
          }
        }
      }
    }
  }

  /**
   * From a non-negative state, with a positive row count and no empty strip,
   * generation succeeds; every start index lies on its strip and every
   * column has `rows` symbols.
   */
  lemma {:induction false} GenerateSucceeds(reels: seq<Strip>, rows: int, seed: int, n: nat)
    requires n <= |reels| && seed >= 0 && rows > 0
    requires forall i :: 0 <= i < |reels| ==> |reels[i]| > 0
    ensures var run := GenerateUpTo(reels, rows, seed, n);
      && run.result.Ok?
      && run.seed == Advance(seed, n)
      && |run.result.value.reels| == |run.result.value.matrix| == n
      && forall i :: 0 <= i < n ==>
           0 <= run.result.value.reels[i].startIndex < |reels[i]| && |run.result.value.matrix[i]| == rows
  {
    if n > 0 {
      GenerateSucceeds(reels, rows, seed, n - 1);
      var prev := GenerateUpTo(reels, rows, seed, n - 1);
      AdvanceInRange(seed, n - 1);
      var d := NextInt(prev.seed, |reels[n - 1]|);
      assert d.Ok? && 0 <= d.value.value < |reels[n - 1]|;
      VisibleWraps(reels[n - 1], d.value.value, rows);
      var column := Visible(reels[n - 1], d.value.value, rows).value;
      var g := prev.result.value;
      assert GenerateUpTo(reels, rows, seed, n) ==
        GenRun(Ok(Generated(g.matrix + [column], g.reels + [ReelSpinInfo(n - 1, d.value.value)])), d.value.seed);
    }
  }

  /**
   * The length of the run of symbols equal to the first one, counted from the
   * left and stopped at the first different symbol.
   */
  function LeadingRun(s: seq<Symbol>): (n: nat)
    requires |s| > 0
    ensures 1 <= n <= |s|
    ensures forall i :: 0 <= i < n ==> s[i] == s[0]
    ensures n < |s| ==> s[n] != s[0]
  {
    if |s| == 1 || s[1] != s[0] then 1 else 1 + LeadingRun(s[1..])
  }

  /** `LeadingRun` is the only length with its three properties. */
  lemma LeadingRunUnique(s: seq<Symbol>, n: int)
    requires 1 <= n <= |s|
    requires forall i :: 0 <= i < n ==> s[i] == s[0]
    requires n < |s| ==> s[n] != s[0]
    ensures LeadingRun(s) == n
  {
  }

  /** The win one line's symbols make, if any. */
  function LineWinFor(table: Paytable, symbols: seq<Symbol>, paylineIndex: int, bet: int): Option<LineWin>
  {
    if |symbols| == 0 then None
    else
      var count := LeadingRun(symbols);
      if count < 3 then None
      else
        var base := PayoutForSymbol(table, symbols[0], count);
        if base == 0 then None
        else Some(LineWin(paylineIndex, symbols[0], count, base * bet))
  }

  /**
   * A line wins exactly when at least three symbols from the left are equal
   * and the table pays for that run; the win records the first symbol, the
   * full run length (a later equal symbol after a different one does not
   * count) and the table value times the bet.
   */
  lemma LineWinMeaning(table: Paytable, symbols: seq<Symbol>, paylineIndex: int, bet: int)
    ensures var w := LineWinFor(table, symbols, paylineIndex, bet);
      w.Some? <==> |symbols| > 0 && LeadingRun(symbols) >= 3 && PayoutForSymbol(table, symbols[0], LeadingRun(symbols)) != 0
    ensures var w := LineWinFor(table, symbols, paylineIndex, bet);
      w.Some? ==>
        && w.value.paylineIndex == paylineIndex
        && w.value.symbol == symbols[0]
        && 3 <= w.value.count <= |symbols|
        && (forall i :: 0 <= i < w.value.count ==> symbols[i] == w.value.symbol)
        && (w.value.count < |symbols| ==> symbols[w.value.count] != w.value.symbol)
        && w.value.payout == PayoutForSymbol(table, w.value.symbol, w.value.count) * bet
  {
  }

  /** Three Bells, a Grape, a Bell: the run stops at the Grape and pays Bell x3. */
  lemma RunStopsAtFirstMismatch(bet: int)
    ensures LineWinFor(DefaultPaytable, [Bell, Bell, Bell, Grape, Bell], 2, bet) == Some(LineWin(2, Bell, 3, 15 * bet))
  {
    var s := [Bell, Bell, Bell, Grape, Bell];
    LeadingRunUnique(s, 3);
  }

  /** Two equal symbols never win, whatever follows them. */
  lemma TwoNeverWin(table: Paytable, a: Symbol, b: Symbol, rest: seq<Symbol>, paylineIndex: int, bet: int)
    requires a != b
    ensures LineWinFor(table, [a, a, b] + rest, paylineIndex, bet) == None
  {
    LeadingRunUnique([a, a, b] + rest, 2);
  }

  /** The win of payline `p`, None when its symbols cannot be read. */
  function LineWinAt(matrix: Matrix, paylines: seq<Payline>, table: Paytable, bet: int, p: nat): Option<LineWin>
    requires p < |paylines|
  {
    match SymbolsOnPayline(matrix, paylines[p])
    case Err(_) => None
    case Ok(symbols) => LineWinFor(table, symbols, p, bet)
  }

  /** Line evaluation over the first `n` paylines. */
  function WinsUpTo(matrix: Matrix, paylines: seq<Payline>, table: Paytable, bet: int, n: nat): Result<seq<LineWin>, Error>
    requires n <= |paylines|
  {
    if n == 0 then Ok([])
    else match WinsUpTo(matrix, paylines, table, bet, n - 1)
      case Err(e) => Err(e)
      case Ok(ws) =>
        match SymbolsOnPayline(matrix, paylines[n - 1])
        case Err(e) => Err(e)
        case Ok(symbols) =>
          match LineWinFor(table, symbols, n - 1, bet)
          case None => Ok(ws)
          case Some(w) => Ok(ws + [w])
  }

  lemma {:induction false} WinsErrStays(matrix: Matrix, paylines: seq<Payline>, table: Paytable, bet: int, k: nat, n: nat)
    requires k <= n <= |paylines|
    requires WinsUpTo(matrix, paylines, table, bet, k).Err?
    ensures WinsUpTo(matrix, paylines, table, bet, n) == WinsUpTo(matrix, paylines, table, bet, k)
  {
    if n > k {
      WinsErrStays(matrix, paylines, table, bet, k, n - 1);
    }
  }

  /**
   * A successful evaluation read every line; its wins are listed in strictly
   * increasing payline order and each is the win of its own line.
   */
  lemma {:induction false} WinsMeaning(matrix: Matrix, paylines: seq<Payline>, table: Paytable, bet: int, n: nat)
    requires n <= |paylines|
    ensures var r := WinsUpTo(matrix, paylines, table, bet, n);
      r.Ok? ==>
        && (forall p :: 0 <= p < n ==> SymbolsOnPayline(matrix, paylines[p]).Ok?)
        && (forall k :: 0 <= k < |r.value| ==> 0 <= r.value[k].paylineIndex < n)
        && (forall k, l :: 0 <= k < l < |r.value| ==> r.value[k].paylineIndex < r.value[l].paylineIndex)
        && (forall k :: 0 <= k < |r.value| ==> LineWinAt(matrix, paylines, table, bet, r.value[k].paylineIndex) == Some(r.value[k]))
  {
    if n > 0 {
      WinsMeaning(matrix, paylines, table, bet, n - 1);
      var r := WinsUpTo(matrix, paylines, table, bet, n);
      if r.Ok? {
        var ws := WinsUpTo(matrix, paylines, table, bet, n - 1).value;
        var w := LineWinAt(matrix, paylines, table, bet, n - 1);
        if w.Some? {
          assert r.value == ws + [w.value];
        } else {
          assert r.value == ws;
        }
      }
    }
  }

  /** A successful evaluation misses no winning line. */
  lemma {:induction false} WinsComplete(matrix: Matrix, paylines: seq<Payline>, table: Paytable, bet: int, n: nat)
    requires n <= |paylines|
    ensures var r := WinsUpTo(matrix, paylines, table, bet, n);
      r.Ok? ==>
        forall p :: 0 <= p < n && LineWinAt(matrix, paylines, table, bet, p).Some? ==>
          exists k :: 0 <= k < |r.value| && r.value[k].paylineIndex == p
  {
    if n > 0 {
      WinsComplete(matrix, paylines, table, bet, n - 1);
      var r := WinsUpTo(matrix, paylines, table, bet, n);
      if r.Ok? {
        var ws := WinsUpTo(matrix, paylines, table, bet, n - 1).value;
        var w := LineWinAt(matrix, paylines, table, bet, n - 1);
        if w.Some? {
          assert r.value == ws + [w.value];
          forall p | 0 <= p < n && LineWinAt(matrix, paylines, table, bet, p).Some?
            ensures exists k :: 0 <= k < |r.value| && r.value[k].paylineIndex == p
          {
            if p < n - 1 {
              var k :| 0 <= k < |ws| && ws[k].paylineIndex == p;
              assert r.value[k] == ws[k];
            } else {
              assert r.value[|ws|].paylineIndex == p;
            }
          }
        } else {
          assert r.value == ws;
        }
      }
    }
  }

  /** The sum of the payouts, accumulated left to right. */
  function TotalPayout(wins: seq<LineWin>): int
  {
    if |wins| == 0 then 0 else TotalPayout(wins[..|wins| - 1]) + wins[|wins| - 1].payout
  }

  lemma TotalPayoutAppend(wins: seq<LineWin>, w: LineWin)
    ensures TotalPayout(wins + [w]) == TotalPayout(wins) + w.payout
  {
    assert (wins + [w])[..|wins|] == wins;
  }

  /** No negative payout, no negative total. */
  lemma {:induction false} TotalPayoutNonNegative(wins: seq<LineWin>)
    requires forall k :: 0 <= k < |wins| ==> wins[k].payout >= 0
    ensures TotalPayout(wins) >= 0
  {
    if |wins| > 0 {
      TotalPayoutNonNegative(wins[..|wins| - 1]);
    }
  }

  /** A line's win for any bet is its win for a bet of one with the payout scaled. */
  lemma LineWinScalesWithBet(table: Paytable, symbols: seq<Symbol>, paylineIndex: int, bet: int)
    ensures var a := LineWinFor(table, symbols, paylineIndex, bet);
      var b := LineWinFor(table, symbols, paylineIndex, 1);
      (a.Some? <==> b.Some?) && (a.Some? ==> a.value == b.value.(payout := b.value.payout * bet))
  {
  }

  /** Payouts scaled one by one scale the total. */
  lemma {:induction false} TotalPayoutScales(wa: seq<LineWin>, wb: seq<LineWin>, bet: int)
    requires |wa| == |wb|
    requires forall k :: 0 <= k < |wa| ==> wa[k].payout == wb[k].payout * bet
    ensures TotalPayout(wa) == bet * TotalPayout(wb)
  {
    if |wa| > 0 {
      var m := |wa| - 1;
      TotalPayoutScales(wa[..m], wb[..m], bet);
      assert TotalPayout(wa) == bet * TotalPayout(wb[..m]) + wb[m].payout * bet;
      assert bet * TotalPayout(wb[..m]) + wb[m].payout * bet == bet * (TotalPayout(wb[..m]) + wb[m].payout);
    }
  }

  /**
   * The bet only scales payouts: the same lines win with the same symbols and
   * counts, and each payout is the bet times the payout for a bet of one.
   */
  lemma {:induction false} WinsScaleWithBet(matrix: Matrix, paylines: seq<Payline>, table: Paytable, bet: int, n: nat)
    requires n <= |paylines|
    ensures var a := WinsUpTo(matrix, paylines, table, bet, n);
      var b := WinsUpTo(matrix, paylines, table, 1, n);
      && (a.Err? <==> b.Err?)
      && (a.Err? ==> a == b)
      && (a.Ok? ==>
            && |a.value| == |b.value|
            && forall k :: 0 <= k < |a.value| ==> a.value[k] == b.value[k].(payout := b.value[k].payout * bet))
  {
    if n > 0 {
      WinsScaleWithBet(matrix, paylines, table, bet, n - 1);
      var a := WinsUpTo(matrix, paylines, table, bet, n);
      var b := WinsUpTo(matrix, paylines, table, 1, n);
      var symbols := SymbolsOnPayline(matrix, paylines[n - 1]);
      if WinsUpTo(matrix, paylines, table, bet, n - 1).Ok? && symbols.Ok? {
        var wa := WinsUpTo(matrix, paylines, table, bet, n - 1).value;
        var wb := WinsUpTo(matrix, paylines, table, 1, n - 1).value;
        var la := LineWinFor(table, symbols.value, n - 1, bet);
        var lb := LineWinFor(table, symbols.value, n - 1, 1);
        LineWinScalesWithBet(table, symbols.value, n - 1, bet);
        if la.Some? {
          assert a.value == wa + [la.value];
          assert b.value == wb + [lb.value];
        } else {
          assert a.value == wa && b.value == wb;
        }
      }
    }
  }

  /** With a non-negative table and a positive bet every payout is non-negative. */
  lemma {:induction false} WinsNonNegative(matrix: Matrix, paylines: seq<Payline>, table: Paytable, bet: int, n: nat)
    requires n <= |paylines| && NonNegative(table) && bet > 0
    ensures var r := WinsUpTo(matrix, paylines, table, bet, n);
      r.Ok? ==> (forall k :: 0 <= k < |r.value| ==> r.value[k].payout > 0) && TotalPayout(r.value) >= 0
  {
    var r := WinsUpTo(matrix, paylines, table, bet, n);
    if r.Ok? {
      WinsMeaning(matrix, paylines, table, bet, n);
      forall k | 0 <= k < |r.value|
        ensures r.value[k].payout > 0
      {
        var p := r.value[k].paylineIndex;
        var symbols := SymbolsOnPayline(matrix, paylines[p]).value;
        LineWinMeaning(table, symbols, p, bet);
        var base := PayoutForSymbol(table, r.value[k].symbol, r.value[k].count);
        PayoutNonNegative(table, r.value[k].symbol, r.value[k].count);
        assert base > 0;
        MulPositive(base, bet);
      }
      TotalPayoutNonNegative(r.value);
    }
  }

  lemma MulPositive(a: int, b: int)
    requires a > 0 && b > 0
    ensures a * b > 0
  {
  }

  /** The outcome of one spin, with the generator state after it. */
  datatype SpinRun = SpinRun(result: Result<SpinResult, Error>, seed: int)

  /** `spin(bet)` as a function of the configuration and the generator state before it. */
  function SpinSpec(c: MachineConfig, seed: int, bet: int): SpinRun
  {
    if bet <= 0 then SpinRun(Err(SpinBetNotPositive), seed)
    else
      var gen := GenerateUpTo(c.reels, c.visibleRows, seed, |c.reels|);
      match gen.result
      case Err(e) => SpinRun(Err(e), gen.seed)
      case Ok(g) =>
        match WinsUpTo(g.matrix, c.paylines, c.paytable, bet, |c.paylines|)
        case Err(e) => SpinRun(Err(e), gen.seed)
        case Ok(wins) => SpinRun(Ok(SpinResult(g.matrix, wins, TotalPayout(wins), g.reels)), gen.seed)
  }

  /**
   * A successful spin makes one draw per reel in reel order and leaves the
   * generator that many steps on; its matrix holds each reel's window at the
   * recorded start, and its total is the sum of its payouts.
   */
  lemma SpinDraws(c: MachineConfig, seed: int, bet: int)
    ensures var run := SpinSpec(c, seed, bet);
      run.result.Ok? ==>
        && bet > 0
        && run.seed == Advance(seed, |c.reels|)
        && |run.result.value.reels| == |run.result.value.matrix| == |c.reels|
        && run.result.value.totalWin == TotalPayout(run.result.value.wins)
        && forall i :: 0 <= i < |c.reels| ==>
             && |c.reels[i]| > 0
             && run.result.value.reels[i] == ReelSpinInfo(i, DrawnStart(seed, i, |c.reels[i]|))
             && Visible(c.reels[i], run.result.value.reels[i].startIndex, c.visibleRows) == Ok(run.result.value.matrix[i])
  {
    var run := SpinSpec(c, seed, bet);
    if run.result.Ok? {
      var gen := GenerateUpTo(c.reels, c.visibleRows, seed, |c.reels|);
      assert gen.result.Ok?;
      GenerateMeaning(c.reels, c.visibleRows, seed, |c.reels|);
      assert run.result.value.matrix == gen.result.value.matrix;
      assert run.result.value.reels == gen.result.value.reels;
    }
  }

  /**
   * A spin from a non-negative state with a positive bet succeeds when the
   * configuration passed the constructor, no strip is empty and every
   * payline has one in-range row per reel; each start index then lies on
   * its strip and each column has `visibleRows` symbols.
   */
  lemma SpinSucceeds(c: MachineConfig, seed: int, bet: int)
    requires ConfigError(c) == None && seed >= 0 && bet > 0
    requires forall i :: 0 <= i < |c.reels| ==> |c.reels[i]| > 0
    requires WellFormed(c.paylines, |c.reels|, c.visibleRows)
    ensures var run := SpinSpec(c, seed, bet);
      && run.result.Ok?
      && |run.result.value.reels| == |run.result.value.matrix| == |c.reels|
      && forall i :: 0 <= i < |c.reels| ==>
           0 <= run.result.value.reels[i].startIndex < |c.reels[i]| && |run.result.value.matrix[i]| == c.visibleRows
  {
    GenerateSucceeds(c.reels, c.visibleRows, seed, |c.reels|);
    var g := GenerateUpTo(c.reels, c.visibleRows, seed, |c.reels|).result.value;
    WinsSucceed(g.matrix, c.paylines, c.paytable, bet, |c.paylines|, c.visibleRows);
    var wins := WinsUpTo(g.matrix, c.paylines, c.paytable, bet, |c.paylines|).value;
    assert SpinSpec(c, seed, bet).result == Ok(SpinResult(g.matrix, wins, TotalPayout(wins), g.reels));
  }

  lemma {:induction false} WinsSucceed(matrix: Matrix, paylines: seq<Payline>, table: Paytable, bet: int, n: nat, rows: int)
    requires n <= |paylines|
    requires forall i :: 0 <= i < |matrix| ==> |matrix[i]| == rows
    requires WellFormed(paylines, |matrix|, rows)
    ensures WinsUpTo(matrix, paylines, table, bet, n).Ok?
  {
    if n > 0 {
      WinsSucceed(matrix, paylines, table, bet, n - 1, rows);
      var line := paylines[n - 1];
      if |line| > 0 {
        assert |line| == |matrix|;
      }
      SymbolsOnPaylineMeaning(matrix, line);
    }
  }

  /**
   * A successful spin lists its wins in strictly increasing payline order,
   * each the win its line makes on the spin's matrix, with none missing.
   */
  lemma SpinWins(c: MachineConfig, seed: int, bet: int)
    ensures var run := SpinSpec(c, seed, bet);
      run.result.Ok? ==>
        var res := run.result.value;
        && (forall k, l :: 0 <= k < l < |res.wins| ==> res.wins[k].paylineIndex < res.wins[l].paylineIndex)
        && (forall k :: 0 <= k < |res.wins| ==>
              0 <= res.wins[k].paylineIndex < |c.paylines| &&
              LineWinAt(res.matrix, c.paylines, c.paytable, bet, res.wins[k].paylineIndex) == Some(res.wins[k]))
        && (forall p :: 0 <= p < |c.paylines| && LineWinAt(res.matrix, c.paylines, c.paytable, bet, p).Some? ==>
              exists k :: 0 <= k < |res.wins| && res.wins[k].paylineIndex == p)
  {
    var gen := GenerateUpTo(c.reels, c.visibleRows, seed, |c.reels|);
    if bet > 0 && gen.result.Ok? {
      WinsMeaning(gen.result.value.matrix, c.paylines, c.paytable, bet, |c.paylines|);
      WinsComplete(gen.result.value.matrix, c.paylines, c.paytable, bet, |c.paylines|);
    }
  }

  /**
   * The bet does not influence the draws: spins with any positive bet and with
   * a bet of one end in the same state with the same matrix and winning lines,
   * and the total win scales with the bet.
   */
  lemma SpinScalesWithBet(c: MachineConfig, seed: int, bet: int)
    requires bet > 0
    ensures var a := SpinSpec(c, seed, bet);
      var b := SpinSpec(c, seed, 1);
      && a.seed == b.seed
      && (a.result.Ok? <==> b.result.Ok?)
      && (a.result.Ok? ==>
            && a.result.value.matrix == b.result.value.matrix
            && a.result.value.reels == b.result.value.reels
            && |a.result.value.wins| == |b.result.value.wins|
            && a.result.value.totalWin == bet * b.result.value.totalWin)
  {
    var gen := GenerateUpTo(c.reels, c.visibleRows, seed, |c.reels|);
    if gen.result.Ok? {
      var m := gen.result.value.matrix;
      WinsScaleWithBet(m, c.paylines, c.paytable, bet, |c.paylines|);
      var a := WinsUpTo(m, c.paylines, c.paytable, bet, |c.paylines|);
      var b := WinsUpTo(m, c.paylines, c.paytable, 1, |c.paylines|);
      if a.Ok? {
        TotalPayoutScales(a.value, b.value, bet);
      }
    }
  }

  /** With a non-negative paytable every winning line pays and the total is never negative. */
  lemma SpinTotalNonNegative(c: MachineConfig, seed: int, bet: int)
    requires NonNegative(c.paytable)
    ensures var run := SpinSpec(c, seed, bet);
      run.result.Ok? ==>
        (forall k :: 0 <= k < |run.result.value.wins| ==> run.result.value.wins[k].payout > 0) &&
        run.result.value.totalWin >= 0
  {
    var gen := GenerateUpTo(c.reels, c.visibleRows, seed, |c.reels|);
    if bet > 0 && gen.result.Ok? {
      WinsNonNegative(gen.result.value.matrix, c.paylines, c.paytable, bet, |c.paylines|);
    }
  }

  /**
   * A machine: a validated configuration and the generator it draws from.
   * `spinFn` names the spin outcome as a function of the generator state and
   * the bet, so that callers can reason about runs of spins without
   * unfolding `SpinSpec`.
   */
  class SlotMachine {
    const config: MachineConfig
    const rng: SeededRng
    ghost const spinFn: (int, int) -> SpinRun

    /** The constructor's checks passed, and `spinFn` is this machine's `SpinSpec`. */
    ghost predicate Valid()
    {
      && ConfigError(config) == None
      && forall seed, bet {:trigger SpinSpec(config, seed, bet)} :: spinFn(seed, bet) == SpinSpec(config, seed, bet)
    }

    constructor (config: MachineConfig, rng: SeededRng)
      requires ConfigError(config) == None
      ensures this.config == config && this.rng == rng
      ensures Valid()
    {
      this.config := config;
      this.rng := rng;
      this.spinFn := (seed, bet) => SpinSpec(config, seed, bet);
    }

    /** `new SlotMachine(config)`: the first failed check, or a machine holding the configuration. */
    static method Create(config: MachineConfig, rng: SeededRng) returns (r: Result<SlotMachine, Error>)
      ensures ConfigError(config).Some? ==> r == Err(ConfigError(config).value)
      ensures ConfigError(config) == None ==>
        r.Ok? && fresh(r.value) && r.value.config == config && r.value.rng == rng && r.value.Valid()
    {
      var e := ConfigError(config);
      if e.Some? {
        return Err(e.value);
      }
      var m := new SlotMachine(config, rng);
      r := Ok(m);
    }

    /** `spin(bet)`: the bet check, then matrix generation, line evaluation and the total. */
    method Spin(bet: int) returns (r: Result<SpinResult, Error>)
      modifies rng
      ensures SpinRun(r, rng.seed) == SpinSpec(config, old(rng.seed), bet)
      ensures bet <= 0 ==> r == Err(SpinBetNotPositive) && rng.seed == old(rng.seed)
      ensures r.Ok? ==> rng.seed == Advance(old(rng.seed), |config.reels|) && r.value.totalWin == TotalPayout(r.value.wins)
    {
      if bet <= 0 {
        return Err(SpinBetNotPositive);
      }
      var gen := GenerateMatrix();
      if gen.Err? {
        return Err(gen.error);
      }
      var wins := EvaluateWins(gen.value.matrix, bet);
      if wins.Err? {
        return Err(wins.error);
      }
      r := Ok(SpinResult(gen.value.matrix, wins.value, TotalPayout(wins.value), gen.value.reels));
      SpinDraws(config, old(rng.seed), bet);
    }

    /** `generateMatrix`: one draw and one window per reel, in reel order. */
    method GenerateMatrix() returns (r: Result<Generated, Error>)
      modifies rng
      ensures GenRun(r, rng.seed) == GenerateUpTo(config.reels, config.visibleRows, old(rng.seed), |config.reels|)
    {
      var matrix: Matrix := [];
      var infos: seq<ReelSpinInfo> := [];
      for reelIndex := 0 to |config.reels|
        invariant GenerateUpTo(config.reels, config.visibleRows, old(rng.seed), reelIndex) == GenRun(Ok(Generated(matrix, infos)), rng.seed)
      {
        var strip := config.reels[reelIndex];
        var startIndex := rng.NextInt(|strip|);
        if startIndex.Err? {
          GenerateErrStays(config.reels, config.visibleRows, old(rng.seed), reelIndex + 1, |config.reels|);
          return Err(startIndex.error);
        }
        var visibleSymbols := ExtractVisibleSymbols(strip, startIndex.value, config.visibleRows);
        if visibleSymbols.Err? {
          GenerateErrStays(config.reels, config.visibleRows, old(rng.seed), reelIndex + 1, |config.reels|);
          return Err(visibleSymbols.error);
        }
        matrix := matrix + [visibleSymbols.value];
        infos := infos + [ReelSpinInfo(reelIndex, startIndex.value)];
      }
      r := Ok(Generated(matrix, infos));
    }

    /** `evaluateWins`: every payline in order, keeping the lines that win. */
    method EvaluateWins(matrix: Matrix, bet: int) returns (r: Result<seq<LineWin>, Error>)
      ensures r == WinsUpTo(matrix, config.paylines, config.paytable, bet, |config.paylines|)
    {
      var wins: seq<LineWin> := [];
      for paylineIndex := 0 to |config.paylines|
        invariant WinsUpTo(matrix, config.paylines, config.paytable, bet, paylineIndex) == Ok(wins)
      {
        var symbols := GetSymbolsOnPayline(matrix, config.paylines[paylineIndex]);
        if symbols.Err? {
          WinsErrStays(matrix, config.paylines, config.paytable, bet, paylineIndex + 1, |config.paylines|);
          return Err(symbols.error);
        }
        var win := EvaluatePayline(symbols.value, paylineIndex, bet);
        if win.Some? {
          wins := wins + [win.value];
        }
      }
      r := Ok(wins);
    }

    /** `evaluatePayline`: count the run of the first symbol, then look up the payout. */
    method EvaluatePayline(symbols: seq<Symbol>, paylineIndex: int, bet: int) returns (w: Option<LineWin>)
      ensures w == LineWinFor(config.paytable, symbols, paylineIndex, bet)
    {
      if |symbols| == 0 {
        return None;
      }
      var firstSymbol := symbols[0];
      var consecutiveCount := 1;
      var i := 1;
      while i < |symbols|
        invariant 1 <= i <= |symbols| && consecutiveCount == i
        invariant forall k :: 0 <= k < i ==> symbols[k] == firstSymbol
      {
        if symbols[i] != firstSymbol {
          break;
        }
        consecutiveCount := consecutiveCount + 1;
        i := i + 1;
      }
      LeadingRunUnique(symbols, consecutiveCount);
      if consecutiveCount < 3 {
        return None;
      }
      var basePayout := PayoutForSymbol(config.paytable, firstSymbol, consecutiveCount);
      if basePayout == 0 {
        return None;
      }
      w := Some(LineWin(paylineIndex, firstSymbol, consecutiveCount, basePayout * bet));
    }

    /** The number of reels; at least one, and at least the number of rows. */
    function GetReelCount(): (n: int)
      requires Valid()
      ensures n >= 1 && n >= config.visibleRows
    {
      |config.reels|
    }

    /** The number of visible rows; positive and at most the number of reels. */
    function GetVisibleRows(): (n: int)
      requires Valid()
      ensures 0 < n <= |config.reels|
    {
      config.visibleRows
    }

    /** The number of paylines; at least one. */
    function GetPaylineCount(): (n: int)
      requires Valid()
      ensures n >= 1
    {
      |config.paylines|
    }
  }
}
