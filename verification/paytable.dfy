/**
 * The paytable: per symbol, a partial mapping from match count (3, 4 or 5)
 * to a payout multiplier, and the lookup that never fails.
 */
module Paytables {
  import opened Types

  /** Multipliers keyed by match count; the source allows only the keys 3, 4 and 5. */
  type PaytableEntry = map<int, int>

  type Paytable = map<Symbol, PaytableEntry>

  const DefaultPaytable: Paytable := map[
    Orange := map[3 := 5, 4 := 20, 5 := 50],
    Grape := map[3 := 10, 4 := 30, 5 := 75],
    Bell := map[3 := 15, 4 := 40, 5 := 100],
    Bar := map[3 := 20, 4 := 60, 5 := 150],
    Seven := map[3 := 40, 4 := 120, 5 := 300],
    Diamond := map[3 := 50, 4 := 150, 5 := 500],
    Wild := map[3 := 100, 4 := 300, 5 := 1000],
    Handcuffs := map[3 := 25, 4 := 80, 5 := 200],
    Bank := map[3 := 30, 4 := 100, 5 := 250]
  ]

  /**
   * `getPayoutForSymbol`: zero for a count outside 3..5, for a symbol without
   * an entry and for a count its entry lacks; otherwise the table value.
   */
  function PayoutForSymbol(table: Paytable, symbol: Symbol, count: int): (r: int)
    ensures count < 3 || count > 5 ==> r == 0
    ensures symbol !in table ==> r == 0
    ensures symbol in table && count !in table[symbol] ==> r == 0
    ensures 3 <= count <= 5 && symbol in table && count in table[symbol] ==> r == table[symbol][count]
  {
    if count < 3 || count > 5 then 0
    else if symbol !in table then 0
    else if count in table[symbol] then table[symbol][count]
    else 0
  }

  /** No multiplier in the table is negative. */
  predicate NonNegative(table: Paytable)
  {
    forall s, c :: s in table && c in table[s] ==> table[s][c] >= 0
  }

  /** A non-negative table never yields a negative payout. */
  lemma PayoutNonNegative(table: Paytable, symbol: Symbol, count: int)
    requires NonNegative(table)
    ensures PayoutForSymbol(table, symbol, count) >= 0
  {
  }

  /**
   * Every symbol has entries for 3, 4 and 5 matches in the default table, and
   * its payouts strictly increase with the count.
   */
  lemma DefaultPaytableShape(s: Symbol)
    ensures s in DefaultPaytable
    ensures 3 in DefaultPaytable[s] && 4 in DefaultPaytable[s] && 5 in DefaultPaytable[s]
    ensures 0 < DefaultPaytable[s][3] < DefaultPaytable[s][4] < DefaultPaytable[s][5]
  {
  }

  lemma DefaultPaytableNonNegative()
    ensures NonNegative(DefaultPaytable)
  {
  }

  /** The documented values: SEVEN x5 pays 300, BELL x3/x4/x5 pay 15/40/100. */
  lemma DefaultPayoutExamples()
    ensures PayoutForSymbol(DefaultPaytable, Seven, 5) == 300
    ensures PayoutForSymbol(DefaultPaytable, Bell, 3) == 15
    ensures PayoutForSymbol(DefaultPaytable, Bell, 4) == 40
    ensures PayoutForSymbol(DefaultPaytable, Bell, 5) == 100
    ensures PayoutForSymbol(DefaultPaytable, Seven, 2) == 0
    ensures PayoutForSymbol(DefaultPaytable, Seven, 6) == 0
  {
  }
}
