/**
 * The stock counter of an item as values: what `removeStock` and `addStock`
 * do to a stock level. `Item.RemoveStock` and `Item.AddStock` are specified
 * by these functions; the lemmas relate several calls.
 *
 * Stock levels are mathematical integers: the model does not follow Java
 * `int` overflow.
 */
module StockLedger {

  /** Outcome of a deduction: the new level, or the OutOfStock error carrying the level at the time. */
  datatype Withdrawal = Remaining(stock: int) | OutOfStock(currentStock: int)

  /** `removeStock(n)` on level `stock`. */
  function Withdraw(stock: int, n: int): (w: Withdrawal)
    ensures w.Remaining? <==> n <= stock
    ensures w.Remaining? ==> w.stock >= 0 && w.stock + n == stock
    ensures w.OutOfStock? ==> w.currentStock == stock
  {
    var rest := stock - n;
    if rest < 0 then OutOfStock(stock) else Remaining(rest)
  }

  /** `addStock(n)` on level `stock`: no bound, no rejection. */
  function Deposit(stock: int, n: int): (s: int)
    ensures s - n == stock
  {
    stock + n
  }

  /** Taking back what was just added always succeeds and restores the level. */
  lemma DepositThenWithdraw(stock: int, n: int)
    requires 0 <= stock
    ensures Withdraw(Deposit(stock, n), n) == Remaining(stock)
  {
  }

  /** Two deductions in a row succeed exactly when one deduction of their sum does, and end at the same level. */
  lemma WithdrawTwice(stock: int, m: int, n: int)
    requires 0 <= m && 0 <= n
    ensures Withdraw(stock, m + n).Remaining?
        <==> Withdraw(stock, m).Remaining? && Withdraw(Withdraw(stock, m).stock, n).Remaining?
    ensures Withdraw(stock, m + n).Remaining? ==>
        Withdraw(Withdraw(stock, m).stock, n) == Withdraw(stock, m + n)
  {
  }

  /** One stock operation as a caller issues it. */
  datatype StockOp = RemoveStock(n: int) | AddStock(n: int)

  /** The level after one operation; a refused deduction leaves it as it was. */
  function Apply(stock: int, op: StockOp): int {
    match op
    case RemoveStock(n) =>
      var w := Withdraw(stock, n);
      if w.Remaining? then w.stock else stock
    case AddStock(n) => Deposit(stock, n)
  }

  /** The level after a run of operations, in order. */
  function Run(stock: int, ops: seq<StockOp>): int
    decreases |ops|
  {
    if ops == [] then stock else Run(Apply(stock, ops[0]), ops[1..])
  }

  /**
   * Starting from a non-negative level, any run of deductions (of any
   * amount) and non-negative additions ends at a non-negative level.
   */
  lemma {:induction false} StockStaysNonNegative(stock: int, ops: seq<StockOp>)
    requires 0 <= stock
    requires forall i :: 0 <= i < |ops| && ops[i].AddStock? ==> 0 <= ops[i].n
    ensures Run(stock, ops) >= 0
    decreases |ops|
  {
    if ops != [] {
      StockStaysNonNegative(Apply(stock, ops[0]), ops[1..]);
    }
  }
}
