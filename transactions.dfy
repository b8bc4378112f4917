/** Sales transaction records as the analytics helpers read them. */
module Transactions {
  import opened Calendar

  /**
   * One sale: the date it was recorded on, its total amount, the name of the
   * product sold and the quantity sold.
   */
  datatype Transaction = Transaction(date: Date, amount: real, product: string, quantity: int)

  /** Every record carries a real calendar date, as the database guarantees. */
  predicate AllDated(txs: seq<Transaction>) {
    forall t :: t in txs ==> Valid(t.date)
  }

  /** The day number of a transaction's date. */
  function Day(t: Transaction): int
    requires Valid(t.date)
  {
    Ordinal(t.date)
  }

  /** Sum of the amounts of all the given transactions; 0 when there are none. */
  function TotalAmount(txs: seq<Transaction>): real {
    if txs == [] then 0.0 else TotalAmount(txs[..|txs| - 1]) + txs[|txs| - 1].amount
  }

  predicate AmountsNonNegative(txs: seq<Transaction>) {
    forall t :: t in txs ==> t.amount >= 0.0
  }
}
