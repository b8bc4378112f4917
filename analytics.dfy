/**
 * Period analytics of the dashboard: growth between two periods, and the
 * sales total and best-selling product of the reporting window of a period
 * (calculate_sales_data), the transaction query written as a filter.
 */
module Analytics {
  import opened Calendar
  import opened Transactions

  /**
   * Relative change from previous to current in percent; 0 when previous is
   * 0, whatever current is.
   */
  function GrowthPct(current: real, previous: real): (r: real)
    ensures previous == 0.0 ==> r == 0.0
    ensures previous != 0.0 ==> r * previous == (current - previous) * 100.0
    ensures previous > 0.0 ==> (r > 0.0 <==> current > previous) && (r == 0.0 <==> current == previous)
  {
    if previous != 0.0 then ((current - previous) / previous) * 100.0 else 0.0
  }

  /** Applying a non-zero previous value's growth to it gives back the current value. */
  lemma GrowthRoundTrip(current: real, previous: real)
    requires previous != 0.0
    ensures previous + previous * GrowthPct(current, previous) / 100.0 == current
  {
  }

  /** The name and summed quantity of the best-selling product of a window. */
  datatype TopProduct = TopProduct(name: string, totalSold: int)

  /** What an empty window reports as its best seller. */
  const NoTopProduct := TopProduct("N/A", 0)

  /** The date falls within [start, end] (the query's date range lookup). */
  predicate InRange(d: Date, start: Date, end: Date)
    requires Valid(d) && Valid(start) && Valid(end)
  {
    Ordinal(start) <= Ordinal(d) <= Ordinal(end)
  }

  /** The transactions dated within [start, end], in their original order. */
  function InWindow(txs: seq<Transaction>, start: Date, end: Date): (w: seq<Transaction>)
    requires AllDated(txs) && Valid(start) && Valid(end)
    ensures AllDated(w)
    ensures forall t :: t in w <==> t in txs && InRange(t.date, start, end)
    ensures forall t :: t in txs ==>
      multiset(w)[t] == if InRange(t.date, start, end) then multiset(txs)[t] else 0
  {
    if txs == [] then []
    else
      var rest, last := txs[..|txs| - 1], txs[|txs| - 1];
      assert txs == rest + [last];
      assert multiset(txs) == multiset(rest) + multiset{last};
      var w := InWindow(rest, start, end);
      if InRange(last.date, start, end) then
        assert multiset(w + [last]) == multiset(w) + multiset{last};
        w + [last]
      else w
  }

  /** The transactions of the reporting window of a period ending today. */
  function PeriodTransactions(period: string, today: Date, txs: seq<Transaction>): seq<Transaction>
    requires Valid(today) && AllDated(txs)
  {
    var (start, end) := DateRange(period, today);
    InWindow(txs, start, end)
  }

  /** Summed quantity of the transactions of the named product. */
  function QuantitySold(txs: seq<Transaction>, name: string): int {
    if txs == [] then 0
    else
      var last := txs[|txs| - 1];
      QuantitySold(txs[..|txs| - 1], name) + (if last.product == name then last.quantity else 0)
  }

  /** top is a product of the window with the largest summed quantity. */
  predicate IsTopProduct(w: seq<Transaction>, top: TopProduct) {
    (exists t :: t in w && t.product == top.name)
    && top.totalSold == QuantitySold(w, top.name)
    && forall t :: t in w ==> QuantitySold(w, t.product) <= top.totalSold
  }

  /**
   * calculate_sales_data: the total amount of the period's window (0 when
   * empty) and its best-selling product, or the "N/A" sentinel with 0 sold
   * when the window is empty.
   */
  method CalculateSalesData(period: string, today: Date, txs: seq<Transaction>)
    returns (total: real, top: TopProduct)
    requires Valid(today) && AllDated(txs)
    ensures total == TotalAmount(PeriodTransactions(period, today, txs))
    ensures PeriodTransactions(period, today, txs) == [] ==> total == 0.0 && top == NoTopProduct
    ensures PeriodTransactions(period, today, txs) != [] ==>
      IsTopProduct(PeriodTransactions(period, today, txs), top)
  {
    var w := PeriodTransactions(period, today, txs);
    var sold;
    total, sold := Tally(w);
    if |w| == 0 {
      top := NoTopProduct;
    } else {
      top := BestSeller(w, sold);
    }
  }

  /** The total amount of the window and the quantity sold per product name. */
  method Tally(w: seq<Transaction>) returns (total: real, sold: map<string, int>)
    ensures total == TotalAmount(w)
    ensures forall t :: t in w ==> t.product in sold
    ensures forall p :: p in sold ==> sold[p] == QuantitySold(w, p)
  {
    total := 0.0;
    sold := map[];
    var i := 0;
    while i < |w|
      invariant 0 <= i <= |w|
      invariant total == TotalAmount(w[..i])
      invariant forall j :: 0 <= j < i ==> w[j].product in sold
      invariant forall p :: p in sold ==> sold[p] == QuantitySold(w[..i], p)
      invariant forall p :: p !in sold ==> QuantitySold(w[..i], p) == 0
    {
      var t := w[i];
      assert w[..i + 1] == w[..i] + [t];
      TallyStep(w[..i], t);
      var before := if t.product in sold then sold[t.product] else 0;
      sold := sold[t.product := before + t.quantity];
      total := total + t.amount;
      i := i + 1;
    }
    assert w[..i] == w;
  }

  lemma TallyStep(w: seq<Transaction>, t: Transaction)
    ensures TotalAmount(w + [t]) == TotalAmount(w) + t.amount
    ensures forall p :: QuantitySold(w + [t], p) == QuantitySold(w, p) + (if t.product == p then t.quantity else 0)
  {
  }

  /** A product with the largest summed quantity; ties go to the one seen first. */
  method BestSeller(w: seq<Transaction>, sold: map<string, int>) returns (top: TopProduct)
    requires w != []
    requires forall t :: t in w ==> t.product in sold
    requires forall p :: p in sold ==> sold[p] == QuantitySold(w, p)
    ensures IsTopProduct(w, top)
  {
    assert w[0] in w;
    top := TopProduct(w[0].product, sold[w[0].product]);
    ghost var at := 0;
    var k := 1;
    while k < |w|
      invariant 1 <= k <= |w|
      invariant 0 <= at < |w| && w[at].product == top.name
      invariant top.totalSold == QuantitySold(w, top.name)
      invariant forall j :: 0 <= j < k ==> QuantitySold(w, w[j].product) <= top.totalSold
    {
      assert w[k] in w;
      var s := sold[w[k].product];
      if s > top.totalSold {
        top := TopProduct(w[k].product, s);
        at := k;
      }
      k := k + 1;
    }
    assert w[at] in w;
    forall t | t in w
      ensures QuantitySold(w, t.product) <= top.totalSold
    {
      var j :| 0 <= j < |w| && w[j] == t;
    }
  }

  // ---------------------------------------------------------------------
  // Properties of the windows

  /** The daily window holds exactly the transactions dated today. */
  lemma DailyWindowIsToday(today: Date, txs: seq<Transaction>, t: Transaction)
    requires Valid(today) && AllDated(txs)
    ensures t in PeriodTransactions("daily", today, txs) <==> t in txs && t.date == today
  {
    if t in txs {
      OrdinalOrder(t.date, today);
    }
  }

  /**
   * The monthly window, and that of any unrecognised period name, holds
   * exactly the transactions of the current month up to today.
   */
  lemma MonthlyWindowIsMonthToDate(period: string, today: Date, txs: seq<Transaction>, t: Transaction)
    requires Valid(today) && AllDated(txs)
    requires period != "daily" && period != "weekly"
    ensures t in PeriodTransactions(period, today, txs) <==>
      t in txs && t.date.year == today.year && t.date.month == today.month && t.date.day <= today.day
  {
    if t in txs {
      var start := DateRange(period, today).0;
      OrdinalOrder(t.date, today);
      OrdinalOrder(start, t.date);
    }
  }

  /**
   * The weekly window holds exactly the transactions from the Monday of the
   * current week up to today; anything older, such as last Sunday's, is left out.
   */
  lemma WeeklyWindowIsWeekToDate(today: Date, txs: seq<Transaction>, t: Transaction)
    requires Valid(today) && AllDated(txs)
    ensures t in PeriodTransactions("weekly", today, txs) <==>
      t in txs && Ordinal(today) - Weekday(today) <= Ordinal(t.date) <= Ordinal(today)
  {
  }

  /** With no negative amounts, no window totals less than 0. */
  lemma {:induction false} TotalNonNegative(txs: seq<Transaction>)
    requires AmountsNonNegative(txs)
    ensures TotalAmount(txs) >= 0.0
    decreases |txs|
  {
    if txs != [] {
      var rest := txs[..|txs| - 1];
      assert forall t :: t in rest ==> t in txs;
      TotalNonNegative(rest);
    }
  }
}
