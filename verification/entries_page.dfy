/** The entries list: its date filter and the per-row expenses, profit and
    ROI, which count purchases only. */
module EntriesPage {
  import opened Values
  import opened Records
  import opened Finance
  import opened Queries

  /** The page opens on "today" with no dates. */
  const InitialFilter: RangeFilter := RangeFilter("today", "", "")

  /** `items.reduce((a, c) => a + c.amount, 0)` with no `|| 0`: a blank or
      missing amount makes the sum something other than a number, `None`
      here. */
  function RawSum(items: seq<Item>): (r: Option<int>)
    ensures r.Some? <==> forall i | 0 <= i < |items| :: items[i].amount.Val?
    ensures r.Some? ==> r.value == ItemsSum(items)
  {
    if |items| == 0 then Some(0)
    else
      var init := RawSum(items[..|items| - 1]);
      var last := items[|items| - 1].amount;
      if init.Some? && last.Val? then Some(init.value + last.n) else None
  }

  /** The figures of one row. */
  datatype Row = Row(expenses: int, profit: int, roi: real)

  /** A row: expenses are the purchase amounts, profit is revenue (0 when
      blank) minus those, and ROI is profit over expenses in percent, 0
      when the expenses are not positive. `None` where an amount is missing
      and the expenses and profit are not numbers; the ROI cell is then
      `ShownRoi`. */
  function EntryRow(e: Entry): (r: Option<Row>)
    ensures r.Some? <==> RawSum(e.purchaseCost).Some?
    ensures r.Some? ==> r.value.expenses == ItemsSum(e.purchaseCost)
    ensures r.Some? ==> r.value.profit == Revenue(e) - r.value.expenses
    ensures r.Some? && r.value.expenses <= 0 ==> r.value.roi == 0.0
    ensures r.Some? && r.value.expenses > 0 ==> r.value.roi * (r.value.expenses as real) == (r.value.profit as real) * 100.0
  {
    match RawSum(e.purchaseCost)
    case None => None
    case Some(x) => Some(Row(x, Revenue(e) - x, Percent(Revenue(e) - x, x)))
  }

  /** The ROI cell: `expenses > 0 ? … : 0`. Where an amount is missing the
      expenses are not a number, the test is false and the cell shows 0. */
  function ShownRoi(e: Entry): (roi: real)
    ensures RawSum(e.purchaseCost).None? ==> roi == 0.0
    ensures EntryRow(e).Some? ==> roi == EntryRow(e).value.roi
    ensures roi != 0.0 ==> ItemsSum(e.purchaseCost) > 0
  {
    match EntryRow(e)
    case Some(row) => row.roi
    case None => 0.0
  }

  /** The row leaves every expense category out: its expenses fall short
      of the summary page's `calcExpenses` by exactly those, and with no
      negative amount its profit is at least the summary's. */
  lemma RowIgnoresCategories(e: Entry)
    requires EntryRow(e).Some?
    ensures EntryRow(e).value.expenses == CalcExpenses(e) - ExpenseCategories(e.expenses)
    ensures NonNegativeEntry(e) ==> EntryRow(e).value.profit >= EntryTotals(e).profit
  {
    if NonNegativeEntry(e) {
      CalcExpensesNonNegative(e);
    }
  }
}
