/**
 * The daily sales series of prepare_sales_dataframe: transaction amounts
 * grouped by date and summed, laid out on every calendar day from the first
 * to the last transaction date with empty days at 0, and withheld when fewer
 * than five days sold anything.
 */
module SeriesBuilder {
  import opened Wrappers
  import opened Sums
  import opened Transactions

  /** What the grouping query reads of a transaction: its day number and its amount. */
  datatype Sale = Sale(day: int, amount: real)

  /** The (date, amount) rows of a transaction query, dates as day numbers. */
  function DatedAmounts(txs: seq<Transaction>): (r: seq<Sale>)
    requires AllDated(txs)
    ensures |r| == |txs|
    ensures forall i :: 0 <= i < |txs| ==> r[i] == Sale(Day(txs[i]), txs[i].amount)
  {
    seq(|txs|, i requires 0 <= i < |txs| => Sale(Day(txs[i]), txs[i].amount))
  }

  /** A gap-free daily series: totals[i] is the revenue of day number firstDay + i. */
  datatype DailySeries = DailySeries(firstDay: int, totals: seq<real>)

  /** Fewest days with positive sales worth fitting a model to. */
  const MinPositiveDays := 5

  /** The earliest day among the rows. */
  function FirstDay(sales: seq<Sale>): int
    requires sales != []
  {
    var last := sales[|sales| - 1];
    if |sales| == 1 then last.day
    else
      var d := FirstDay(sales[..|sales| - 1]);
      if last.day < d then last.day else d
  }

  /** The latest day among the rows. */
  function LastDay(sales: seq<Sale>): int
    requires sales != []
  {
    var last := sales[|sales| - 1];
    if |sales| == 1 then last.day
    else
      var d := LastDay(sales[..|sales| - 1]);
      if last.day > d then last.day else d
  }

  /**
   * The first and last day bound every row's day and are themselves days of
   * rows, so the series starts and ends on a day with sales.
   */
  lemma {:induction false} DayBounds(sales: seq<Sale>)
    requires sales != []
    ensures forall s :: s in sales ==> FirstDay(sales) <= s.day <= LastDay(sales)
    ensures exists s :: s in sales && s.day == FirstDay(sales)
    ensures exists s :: s in sales && s.day == LastDay(sales)
    decreases |sales|
  {
    var last := sales[|sales| - 1];
    if |sales| == 1 {
      assert sales == [last];
      assert last in sales;
    } else {
      var rest := sales[..|sales| - 1];
      assert sales == rest + [last];
      DayBounds(rest);
      forall s | s in sales
        ensures FirstDay(sales) <= s.day <= LastDay(sales)
      {
        if s != last {
          assert s in rest;
        }
      }
      if last.day >= FirstDay(rest) {
        var w :| w in rest && w.day == FirstDay(rest);
        assert w in sales;
      }
      if last.day <= LastDay(rest) {
        var w :| w in rest && w.day == LastDay(rest);
        assert w in sales;
      }
    }
  }

  /** Revenue of day d: the amounts of that day's rows, summed. */
  function DaySum(sales: seq<Sale>, d: int): real {
    if sales == [] then 0.0
    else
      var last := sales[|sales| - 1];
      DaySum(sales[..|sales| - 1], d) + (if last.day == d then last.amount else 0.0)
  }

  /** Sum of the amounts of all rows. */
  function SalesTotal(sales: seq<Sale>): real {
    if sales == [] then 0.0 else SalesTotal(sales[..|sales| - 1]) + sales[|sales| - 1].amount
  }

  /** The revenues of the n consecutive days starting at day lo. */
  function Totals(sales: seq<Sale>, lo: int, n: nat): (r: seq<real>)
    ensures |r| == n
  {
    seq(n, i => DaySum(sales, lo + i))
  }

  /** The revenue of every day from the first to the last day with a row. */
  function DailyTotals(sales: seq<Sale>): seq<real>
    requires sales != []
  {
    Totals(sales, FirstDay(sales), LastDay(sales) - FirstDay(sales) + 1)
  }

  /** How many entries of s are strictly positive. */
  function PositiveDays(s: seq<real>): (k: nat)
    ensures k <= |s|
  {
    if s == [] then 0
    else PositiveDays(s[..|s| - 1]) + (if s[|s| - 1] > 0.0 then 1 else 0)
  }

  /**
   * prepare_sales_dataframe over the transactions of a query: None when there
   * are none or fewer than MinPositiveDays days with positive revenue,
   * otherwise the gap-filled daily series starting on the first transaction day.
   */
  method PrepareSalesSeries(txs: seq<Transaction>) returns (r: Option<DailySeries>)
    requires AllDated(txs)
    ensures var sales := DatedAmounts(txs);
      r.None? <==> sales == [] || PositiveDays(DailyTotals(sales)) < MinPositiveDays
    ensures var sales := DatedAmounts(txs);
      r.Some? ==> sales != [] && r.value == DailySeries(FirstDay(sales), DailyTotals(sales))
  {
    var sales := DatedAmounts(txs);
    if |sales| == 0 {
      return None;
    }
    var totals := GapFill(sales);
    // Count the days with positive sales.
    var positive := 0;
    var k := 0;
    while k < |totals|
      invariant 0 <= k <= |totals|
      invariant positive == PositiveDays(totals[..k])
    {
      assert totals[..k + 1][..k] == totals[..k];
      if totals[k] > 0.0 {
        positive := positive + 1;
      }
      k := k + 1;
    }
    assert totals[..k] == totals;
    if positive < MinPositiveDays {
      return None;
    }
    return Some(DailySeries(FirstDay(sales), totals));
  }

  /** The first and last day of the date-ordered rows. */
  method DayRange(sales: seq<Sale>) returns (lo: int, hi: int)
    requires sales != []
    ensures lo == FirstDay(sales) && hi == LastDay(sales)
  {
    lo, hi := sales[0].day, sales[0].day;
    var k := 1;
    while k < |sales|
      invariant 1 <= k <= |sales|
      invariant lo == FirstDay(sales[..k]) && hi == LastDay(sales[..k])
    {
      var d := sales[k].day;
      RangeAppend(sales[..k], sales[k]);
      assert sales[..k + 1] == sales[..k] + [sales[k]];
      if d < lo {
        lo := d;
      }
      if d > hi {
        hi := d;
      }
      k := k + 1;
    }
    assert sales[..k] == sales;
  }

  /**
   * The date-indexed frame resampled to daily frequency: one slot per day from
   * the first to the last row's day, each slot the sum of that day's amounts,
   * days without rows at 0.
   */
  method GapFill(sales: seq<Sale>) returns (totals: seq<real>)
    requires sales != []
    ensures totals == DailyTotals(sales)
  {
    var lo, hi := DayRange(sales);
    DayBounds(sales);
    totals := FillDays(sales, lo, hi - lo + 1);
  }

  /** Adds every row's amount into the slot of its day, in an array of n zeros for days lo, lo + 1, ... */
  method FillDays(sales: seq<Sale>, lo: int, n: nat) returns (totals: seq<real>)
    requires forall s :: s in sales ==> lo <= s.day < lo + n
    ensures totals == Totals(sales, lo, n)
  {
    var a := new real[n](_ => 0.0);
    var k := 0;
    while k < |sales|
      invariant 0 <= k <= |sales|
      invariant forall i :: 0 <= i < n ==> a[i] == DaySum(sales[..k], lo + i)
    {
      var s := sales[k];
      assert s in sales;
      assert sales[..k + 1] == sales[..k] + [s];
      forall d: int
        ensures DaySum(sales[..k + 1], d) == DaySum(sales[..k], d) + (if s.day == d then s.amount else 0.0)
      {
        DaySumAppend(sales[..k], s, d);
      }
      var i := s.day - lo;
      a[i] := a[i] + s.amount;
      k := k + 1;
    }
    assert sales[..k] == sales;
    totals := a[..];
  }

  // ---------------------------------------------------------------------
  // Properties of the series

  /** Every row falls on a day the series covers. */
  lemma SpanCoversAll(sales: seq<Sale>, s: Sale)
    requires s in sales
    ensures 0 <= s.day - FirstDay(sales) < |DailyTotals(sales)|
  {
  }

  lemma RangeAppend(sales: seq<Sale>, s: Sale)
    requires sales != []
    ensures FirstDay(sales + [s]) == if s.day < FirstDay(sales) then s.day else FirstDay(sales)
    ensures LastDay(sales + [s]) == if s.day > LastDay(sales) then s.day else LastDay(sales)
  {
  }

  lemma DaySumAppend(sales: seq<Sale>, s: Sale, d: int)
    ensures DaySum(sales + [s], d) == DaySum(sales, d) + (if s.day == d then s.amount else 0.0)
  {
  }

  /** A day's total over two runs of rows is the sum of its totals over each. */
  lemma {:induction false} DaySumConcat(x: seq<Sale>, y: seq<Sale>, d: int)
    ensures DaySum(x + y, d) == DaySum(x, d) + DaySum(y, d)
    decreases |y|
  {
    if y == [] {
      assert x + y == x;
    } else {
      var init := y[..|y| - 1];
      assert (x + y)[..|x + y| - 1] == x + init;
      DaySumConcat(x, init, d);
    }
  }

  /**
   * Grouping by date does not depend on the order of the rows: rows that are
   * a reordering of each other give every day the same total.
   */
  lemma {:induction false} DaySumPermutation(a: seq<Sale>, b: seq<Sale>, d: int)
    requires multiset(a) == multiset(b)
    ensures DaySum(a, d) == DaySum(b, d)
    decreases |a|
  {
    if a == [] {
      assert |b| == |multiset(b)| == 0;
    } else {
      var init, last := a[..|a| - 1], a[|a| - 1];
      assert a == init + [last];
      assert last in multiset(b);
      var j :| 0 <= j < |b| && b[j] == last;
      var before, after := b[..j], b[j + 1..];
      assert b == before + [last] + after;
      assert multiset(b) == multiset(before + after) + multiset{last};
      assert multiset(a) == multiset(init) + multiset{last};
      assert multiset(init) == multiset(a) - multiset{last};
      assert multiset(before + after) == multiset(b) - multiset{last};
      DaySumPermutation(init, before + after, d);
      DaySumConcat(before + [last], after, d);
      DaySumConcat(before, after, d);
      DaySumAppend(before, last, d);
    }
  }

  /** Adding a row adds its amount to the window's sum exactly when its day is inside. */
  lemma {:induction false} TotalsAppend(sales: seq<Sale>, s: Sale, lo: int, n: nat)
    ensures Sum(Totals(sales + [s], lo, n))
      == Sum(Totals(sales, lo, n)) + (if lo <= s.day < lo + n then s.amount else 0.0)
  {
    if n > 0 {
      TotalsAppend(sales, s, lo, n - 1);
      DaySumAppend(sales, s, lo + n - 1);
      TotalsPrefix(sales + [s], lo, n);
      TotalsPrefix(sales, lo, n);
    }
  }

  lemma TotalsPrefix(sales: seq<Sale>, lo: int, n: nat)
    requires n > 0
    ensures Sum(Totals(sales, lo, n)) == Sum(Totals(sales, lo, n - 1)) + DaySum(sales, lo + n - 1)
  {
    assert Totals(sales, lo, n)[..n - 1] == Totals(sales, lo, n - 1);
  }

  lemma {:induction false} ZeroTotals(lo: int, n: nat)
    ensures Sum(Totals([], lo, n)) == 0.0
  {
    if n > 0 {
      ZeroTotals(lo, n - 1);
      TotalsPrefix([], lo, n);
    }
  }

  /** Laying amounts out by day neither loses nor duplicates any. */
  lemma {:induction false} TotalsConserve(sales: seq<Sale>, lo: int, n: nat)
    requires forall s :: s in sales ==> lo <= s.day < lo + n
    ensures Sum(Totals(sales, lo, n)) == SalesTotal(sales)
    decreases |sales|
  {
    if sales == [] {
      ZeroTotals(lo, n);
    } else {
      var rest, last := sales[..|sales| - 1], sales[|sales| - 1];
      assert sales == rest + [last];
      TotalsAppend(rest, last, lo, n);
      TotalsConserve(rest, lo, n);
    }
  }

  /** The series' total is the total of all rows. */
  lemma DailyTotalsConserve(sales: seq<Sale>)
    requires sales != []
    ensures Sum(DailyTotals(sales)) == SalesTotal(sales)
  {
    DayBounds(sales);
    TotalsConserve(sales, FirstDay(sales), LastDay(sales) - FirstDay(sales) + 1);
  }

  /** The rows of a query carry exactly the transactions' amounts. */
  lemma {:induction false} DatedAmountsTotal(txs: seq<Transaction>)
    requires AllDated(txs)
    ensures SalesTotal(DatedAmounts(txs)) == TotalAmount(txs)
    decreases |txs|
  {
    if txs != [] {
      var rest := txs[..|txs| - 1];
      assert forall t :: t in rest ==> t in txs;
      assert DatedAmounts(txs)[..|txs| - 1] == DatedAmounts(rest);
      DatedAmountsTotal(rest);
    }
  }

  lemma {:induction false} DaySumNonNegative(sales: seq<Sale>, d: int)
    requires forall s :: s in sales ==> s.amount >= 0.0
    ensures DaySum(sales, d) >= 0.0
    decreases |sales|
  {
    if sales != [] {
      var rest := sales[..|sales| - 1];
      assert forall s :: s in rest ==> s in sales;
      DaySumNonNegative(rest, d);
    }
  }

  /** With no negative amounts, no day of the series is negative. */
  lemma DailyTotalsNonNegative(sales: seq<Sale>)
    requires sales != []
    requires forall s :: s in sales ==> s.amount >= 0.0
    ensures AllNonNegative(DailyTotals(sales))
  {
    forall i | 0 <= i < |DailyTotals(sales)|
      ensures DailyTotals(sales)[i] >= 0.0
    {
      DaySumNonNegative(sales, FirstDay(sales) + i);
    }
  }
}
