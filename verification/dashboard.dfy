/** The owner dashboard: pending requests, aggregate revenue, purchase
    expenses, profit, ROI and margin, and the per-row figures of its entry
    table. None of its sums guard against a missing value. */
module Dashboard {
  import opened Values
  import opened Records
  import opened Ledger
  import opened Finance
  import opened EntriesPage

  /** The number in the "Pending Requests" heading. */
  function PendingShown(rs: seq<Request>): (n: nat)
    ensures n <= |rs|
  {
    |PendingRequests(rs)|
  }

  /** The heading counts each pending request once and nothing else. */
  lemma PendingShownCounts(rs: seq<Request>, r: Request)
    ensures r in PendingRequests(rs) <==> r in rs && r.status == Pending
  {
    PendingCount(rs, r);
    CountPositive(PendingRequests(rs), r);
    CountPositive(rs, r);
  }

  /** `entries.reduce((a, c) => a + c.totalRevenue, 0)`: not a number as
      soon as one revenue is blank. */
  function RawRevenue(es: seq<Entry>): (r: Option<int>)
    ensures r.Some? <==> forall i | 0 <= i < |es| :: es[i].totalRevenue.Val?
  {
    if |es| == 0 then Some(0)
    else
      var init := RawRevenue(es[..|es| - 1]);
      var last := es[|es| - 1].totalRevenue;
      if init.Some? && last.Val? then Some(init.value + last.n) else None
  }

  /** The sum over entries of their unguarded purchase sums. */
  function RawPurchases(es: seq<Entry>): (r: Option<int>)
    ensures r.Some? <==> forall i | 0 <= i < |es| :: RawSum(es[i].purchaseCost).Some?
  {
    if |es| == 0 then Some(0)
    else
      var init := RawPurchases(es[..|es| - 1]);
      var last := RawSum(es[|es| - 1].purchaseCost);
      if init.Some? && last.Some? then Some(init.value + last.value) else None
  }

  /** The five aggregate cards, each `None` where it shows `NaN`. */
  datatype Cards = Cards(revenue: Option<int>, expenses: Option<int>, profit: Option<int>, roi: Option<real>, margin: Option<real>)

  /** `x > 0` on a value that may be `NaN`, which is never positive. */
  predicate PositiveOpt(x: Option<int>)
  {
    x.Some? && x.value > 0
  }

  /** The cards, each computed on its own: profit is revenue minus
      purchase expenses, and is `NaN` as soon as either is. ROI is 0 unless
      the expenses are positive and the margin 0 unless the revenue is, so
      each of them is `NaN` only where its guard passes and the profit is
      `NaN`. */
  function Aggregates(es: seq<Entry>): (c: Cards)
    ensures c.revenue == RawRevenue(es) && c.expenses == RawPurchases(es)
    ensures c.profit.Some? <==> c.revenue.Some? && c.expenses.Some?
    ensures c.profit.Some? ==> c.profit.value == c.revenue.value - c.expenses.value
    ensures c.roi.None? <==> PositiveOpt(c.expenses) && c.revenue.None?
    ensures c.roi.Some? && !PositiveOpt(c.expenses) ==> c.roi.value == 0.0
    ensures c.roi.Some? && PositiveOpt(c.expenses)
      ==> c.roi.value * (c.expenses.value as real) == (c.profit.value as real) * 100.0
    ensures c.margin.None? <==> PositiveOpt(c.revenue) && c.expenses.None?
    ensures c.margin.Some? && !PositiveOpt(c.revenue) ==> c.margin.value == 0.0
    ensures c.margin.Some? && PositiveOpt(c.revenue)
      ==> c.margin.value * (c.revenue.value as real) == (c.profit.value as real) * 100.0
  {
    var rev, exp := RawRevenue(es), RawPurchases(es);
    var profit := if rev.Some? && exp.Some? then Some(rev.value - exp.value) else None;
    Cards(rev, exp, profit, Guarded(profit, exp), Guarded(profit, rev))
  }

  /** `base > 0 ? (part / base) * 100 : 0` where either may be `NaN`. */
  function Guarded(part: Option<int>, base: Option<int>): (r: Option<real>)
    ensures r.None? <==> PositiveOpt(base) && part.None?
    ensures r.Some? && !PositiveOpt(base) ==> r.value == 0.0
    ensures r.Some? && PositiveOpt(base) ==> r.value == Percent(part.value, base.value)
  {
    if PositiveOpt(base) then (if part.Some? then Some(Percent(part.value, base.value)) else None)
    else Some(0.0)
  }

  /** With a revenue missing and every purchase amount present, the
      revenue and profit cards show `NaN`, the expenses card its number and
      the margin 0; ROI is `NaN` only for positive expenses. */
  lemma MissingRevenueCards(es: seq<Entry>, i: nat)
    requires i < |es| && es[i].totalRevenue == Blank && RawPurchases(es).Some?
    ensures Aggregates(es).revenue == None && Aggregates(es).profit == None
    ensures Aggregates(es).expenses == RawPurchases(es) && Aggregates(es).margin == Some(0.0)
    ensures Aggregates(es).roi.None? <==> RawPurchases(es).value > 0
  {
  }

  /** With a purchase amount missing and every revenue present, the
      expenses and profit cards show `NaN`, the revenue card its number and
      ROI 0; the margin is `NaN` only for positive revenue. */
  lemma MissingAmountCards(es: seq<Entry>, i: nat)
    requires i < |es| && RawSum(es[i].purchaseCost).None? && RawRevenue(es).Some?
    ensures Aggregates(es).expenses == None && Aggregates(es).profit == None
    ensures Aggregates(es).revenue == RawRevenue(es) && Aggregates(es).roi == Some(0.0)
    ensures Aggregates(es).margin.None? <==> RawRevenue(es).value > 0
  {
  }

  /** The summary's expenses less every expense category of every entry. */
  function CategoriesOf(es: seq<Entry>): int
  {
    if |es| == 0 then 0 else CategoriesOf(es[..|es| - 1]) + ExpenseCategories(es[|es| - 1].expenses)
  }

  /** Where every value is present, the dashboard's revenue is the summary
      page's, and its expenses are the summary's without the expense
      categories. */
  lemma {:induction false} AggregatesVsSummary(es: seq<Entry>)
    requires RawRevenue(es).Some? && RawPurchases(es).Some?
    ensures Aggregates(es).revenue == Some(SummaryTotals(es).revenue)
    ensures Aggregates(es).expenses == Some(SummaryTotals(es).expenses - CategoriesOf(es))
  {
    if |es| > 0 {
      var init := es[..|es| - 1];
      assert RawRevenue(init).Some? && RawPurchases(init).Some? by {
        assert forall i | 0 <= i < |init| :: init[i] == es[i];
      }
      AggregatesVsSummary(init);
    }
  }

  /** The per-row profit, `revenue - purchases` with neither guarded: a
      number only when the revenue and every purchase amount are. */
  function RowProfit(e: Entry): (r: Option<int>)
    ensures r.Some? <==> e.totalRevenue.Val? && RawSum(e.purchaseCost).Some?
    ensures r.Some? ==> r.value + ItemsSum(e.purchaseCost) == e.totalRevenue.n
  {
    match RawSum(e.purchaseCost)
    case Some(x) => if e.totalRevenue.Val? then Some(e.totalRevenue.n - x) else None
    case None => None
  }

  /** Where the dashboard shows a profit, the entries page shows the same
      one; the entries page also shows one for a blank revenue. */
  lemma RowProfitMatchesEntries(e: Entry)
    requires RawSum(e.purchaseCost).Some?
    ensures EntryRow(e).Some?
    ensures RowProfit(e).Some? ==> EntryRow(e).value.profit == RowProfit(e).value
    ensures RowProfit(e).None? <==> e.totalRevenue == Blank
  {
  }

  /** The per-row ROI, `(revenue - purchases) / purchases * 100`: the row's
      profit over its purchases in percent, with no zero guard, so only a
      finite number when the profit is and the purchases are not zero. */
  function RowRoi(e: Entry): (r: Option<real>)
    ensures r.Some? <==> RowProfit(e).Some? && ItemsSum(e.purchaseCost) != 0
    ensures r.Some? ==> r.value * (ItemsSum(e.purchaseCost) as real) == (RowProfit(e).value as real) * 100.0
  {
    match RowProfit(e)
    case Some(pr) =>
      var x := ItemsSum(e.purchaseCost);
      if x != 0 then Some((pr as real / x as real) * 100.0) else None
    case None => None
  }

  /** An entry without purchases shows an ROI of 0 on the entries page but
      no number on the dashboard. */
  lemma RowRoiUnguarded(e: Entry)
    requires e.purchaseCost == [] && e.totalRevenue.Val?
    ensures RowRoi(e) == None
    ensures EntryRow(e).Some? && EntryRow(e).value.roi == 0.0
  {
  }
}
