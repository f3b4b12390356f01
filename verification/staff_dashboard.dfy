/** The staff dashboard: revenue and expense totals over the fetched
    entries, the profit margin, the per-category expense breakdown behind
    the pie chart, and the five most recent entries. */
module StaffDashboard {
  import opened Values
  import opened Records
  import opened Finance

  /** `entries.reduce((a, c) => a + (c.totalRevenue || 0), 0)`. */
  function TotalRevenue(es: seq<Entry>): int
  {
    if |es| == 0 then 0 else TotalRevenue(es[..|es| - 1]) + Revenue(es[|es| - 1])
  }

  /** The dashboard's own expense fold: every entry adds its purchase sum
      and the sum over its expense object. */
  function TotalExpenses(es: seq<Entry>): int
  {
    if |es| == 0 then 0
    else
      var c := es[|es| - 1];
      TotalExpenses(es[..|es| - 1]) + ItemsSum(c.purchaseCost) + ExpenseCategories(c.expenses)
  }

  /** The dashboard's totals agree with the summary page's `totals`. */
  lemma {:induction false} DashboardMatchesSummary(es: seq<Entry>)
    ensures TotalRevenue(es) == SummaryTotals(es).revenue
    ensures TotalExpenses(es) == SummaryTotals(es).expenses
    ensures TotalRevenue(es) - TotalExpenses(es) == SummaryTotals(es).profit
  {
    if |es| > 0 {
      DashboardMatchesSummary(es[..|es| - 1]);
    }
  }

  /** `profitMargin`: 0 unless the revenue is positive. */
  function ProfitMargin(es: seq<Entry>): (m: real)
    ensures TotalRevenue(es) <= 0 ==> m == 0.0
    ensures TotalRevenue(es) > 0 ==> m * (TotalRevenue(es) as real) == ((TotalRevenue(es) - TotalExpenses(es)) as real) * 100.0
  {
    Percent(TotalRevenue(es) - TotalExpenses(es), TotalRevenue(es))
  }

  // ----- expense breakdown ----------------------------------------------------------

  /** The keys of `expenseBreakdown`: the expense lists, the single fields
      and "Purchase Cost". */
  datatype Category = SalaryCat | AccommodationCat | SingleCat(single: SingleKey) | OtherCat | PurchaseCat

  /** What one entry adds under a category. Purchases are added only when
      their sum is positive. */
  function CategoryAmount(e: Entry, c: Category): int
  {
    match c
    case SalaryCat => ItemsSum(e.expenses.staffSalary)
    case AccommodationCat => ItemsSum(e.expenses.staffAccommodation)
    case SingleCat(k) => Norm(Single(e.expenses, k))
    case OtherCat => ItemsSum(e.expenses.other)
    case PurchaseCat => var pc := ItemsSum(e.purchaseCost); if pc > 0 then pc else 0
  }

  /** `expenseBreakdown[c]`, 0 where the key was never set. */
  function Breakdown(es: seq<Entry>, c: Category): (b: int)
    ensures c == PurchaseCat ==> b >= 0
  {
    if |es| == 0 then 0 else Breakdown(es[..|es| - 1], c) + CategoryAmount(es[|es| - 1], c)
  }

  /** The breakdown is additive over batches of entries. */
  lemma {:induction false} BreakdownConcat(a: seq<Entry>, b: seq<Entry>, c: Category)
    ensures Breakdown(a + b, c) == Breakdown(a, c) + Breakdown(b, c)
  {
    InitOfConcat(a, b);
    if |b| > 0 {
      BreakdownConcat(a, b[..|b| - 1], c);
    }
  }

  function SinglesBreakdown(es: seq<Entry>): int
  {
    Breakdown(es, SingleCat(Food)) + Breakdown(es, SingleCat(Rent)) + Breakdown(es, SingleCat(Electricity))
    + Breakdown(es, SingleCat(TravelFuel)) + Breakdown(es, SingleCat(MobInternet)) + Breakdown(es, SingleCat(Maintenance))
    + Breakdown(es, SingleCat(Transport)) + Breakdown(es, SingleCat(Marketing)) + Breakdown(es, SingleCat(Consulting))
    + Breakdown(es, SingleCat(Software)) + Breakdown(es, SingleCat(Incentive)) + Breakdown(es, SingleCat(StockClearance))
  }

  /** The sum of all breakdown values. */
  function BreakdownTotal(es: seq<Entry>): int
  {
    Breakdown(es, SalaryCat) + Breakdown(es, AccommodationCat) + SinglesBreakdown(es)
    + Breakdown(es, OtherCat) + Breakdown(es, PurchaseCat)
  }

  /** The purchase sums the breakdown leaves out: those that are negative. */
  function DroppedPurchases(es: seq<Entry>): int
  {
    if |es| == 0 then 0
    else
      var pc := ItemsSum(es[|es| - 1].purchaseCost);
      DroppedPurchases(es[..|es| - 1]) + if pc < 0 then pc else 0
  }

  lemma SinglesBreakdownStep(es: seq<Entry>)
    requires |es| > 0
    ensures SinglesBreakdown(es) == SinglesBreakdown(es[..|es| - 1]) + SinglesSum(es[|es| - 1].expenses)
  {
  }

  /** The breakdown accounts for every expense except negative purchase
      sums. */
  lemma {:induction false} BreakdownAccountsForExpenses(es: seq<Entry>)
    ensures BreakdownTotal(es) == TotalExpenses(es) - DroppedPurchases(es)
  {
    if |es| > 0 {
      BreakdownAccountsForExpenses(es[..|es| - 1]);
      SinglesBreakdownStep(es);
    }
  }

  /** Where no purchase sum is negative (in particular where no amount is),
      the breakdown values add up to the total expenses. */
  lemma {:induction false} BreakdownSumsToTotal(es: seq<Entry>)
    requires forall i | 0 <= i < |es| :: ItemsSum(es[i].purchaseCost) >= 0
    ensures BreakdownTotal(es) == TotalExpenses(es)
  {
    BreakdownAccountsForExpenses(es);
    NoDroppedPurchases(es);
  }

  lemma {:induction false} NoDroppedPurchases(es: seq<Entry>)
    requires forall i | 0 <= i < |es| :: ItemsSum(es[i].purchaseCost) >= 0
    ensures DroppedPurchases(es) == 0
  {
    if |es| > 0 {
      NoDroppedPurchases(es[..|es| - 1]);
    }
  }

  // ----- chart data -----------------------------------------------------------------

  /** The breakdown's keys in the order the chart lists them. */
  const Categories: seq<Category> :=
    [SalaryCat, AccommodationCat,
     SingleCat(Food), SingleCat(Rent), SingleCat(Electricity), SingleCat(TravelFuel),
     SingleCat(MobInternet), SingleCat(Maintenance), SingleCat(Transport), SingleCat(Marketing),
     SingleCat(Consulting), SingleCat(Software), SingleCat(Incentive), SingleCat(StockClearance),
     OtherCat, PurchaseCat]

  lemma CategoriesComplete(c: Category)
    ensures c in Categories
  {
    match c
    case SalaryCat => assert Categories[0] == c;
    case AccommodationCat => assert Categories[1] == c;
    case SingleCat(k) => SingleCategoryListed(k);
    case OtherCat => assert Categories[14] == c;
    case PurchaseCat => assert Categories[15] == c;
  }

  lemma SingleCategoryListed(k: SingleKey)
    ensures SingleCat(k) in Categories
  {
    match k
    case Food => assert Categories[2] == SingleCat(k);
    case Rent => assert Categories[3] == SingleCat(k);
    case Electricity => assert Categories[4] == SingleCat(k);
    case TravelFuel => assert Categories[5] == SingleCat(k);
    case MobInternet => assert Categories[6] == SingleCat(k);
    case Maintenance => assert Categories[7] == SingleCat(k);
    case Transport => assert Categories[8] == SingleCat(k);
    case Marketing => assert Categories[9] == SingleCat(k);
    case Consulting => assert Categories[10] == SingleCat(k);
    case Software => assert Categories[11] == SingleCat(k);
    case Incentive => assert Categories[12] == SingleCat(k);
    case StockClearance => assert Categories[13] == SingleCat(k);
  }

  /** One slice of the pie chart. */
  datatype Slice = Slice(category: Category, value: int)

  /** The slices of the categories `cs` whose breakdown value is positive. */
  function PositiveSlices(es: seq<Entry>, cs: seq<Category>): (ds: seq<Slice>)
    ensures forall i | 0 <= i < |ds| :: ds[i].value > 0
    ensures forall d :: d in ds <==> d.category in cs && d.value == Breakdown(es, d.category) && d.value > 0
  {
    if |cs| == 0 then []
    else
      var c := cs[|cs| - 1];
      var v := Breakdown(es, c);
      PositiveSlices(es, cs[..|cs| - 1]) + if v > 0 then [Slice(c, v)] else []
  }

  /** `expenseData`: a slice for exactly the categories with a positive
      total, carrying that total, and nothing that is not positive. */
  lemma ExpenseDataExact(es: seq<Entry>, c: Category, v: int)
    ensures Slice(c, v) in PositiveSlices(es, Categories) <==> v == Breakdown(es, c) && v > 0
  {
    CategoriesComplete(c);
  }

  // ----- recent entries ---------------------------------------------------------------

  /** No entry is later than the one before it. */
  predicate NewestFirst(s: seq<Entry>, time: Entry -> int)
  {
    forall i, j | 0 <= i < j < |s| :: time(s[i]) >= time(s[j])
  }

  /** Inserts `x` before the first entry that is not later than it, so an
      entry that came first stays first among equal times. */
  function Insert(x: Entry, s: seq<Entry>, time: Entry -> int): (r: seq<Entry>)
    requires NewestFirst(s, time)
    ensures NewestFirst(r, time)
    ensures multiset(r) == multiset(s) + multiset{x}
    ensures |r| == |s| + 1
    ensures r[0] == x || (|s| > 0 && r[0] == s[0])
  {
    if |s| == 0 || time(x) >= time(s[0]) then [x] + s
    else
      var rest := Insert(x, s[1..], time);
      assert s == [s[0]] + s[1..];
      assert forall k | 0 <= k < |rest| :: time(s[0]) >= time(rest[k]) by {
        assert time(s[0]) >= time(rest[0]);
      }
      [s[0]] + rest
  }

  /** `[...entries].sort((a, b) => new Date(b.date) - new Date(a.date))`
      on a copy; `time` stands for `new Date(e.date)`. */
  function SortNewestFirst(es: seq<Entry>, time: Entry -> int): (r: seq<Entry>)
    ensures NewestFirst(r, time)
    ensures multiset(r) == multiset(es)
    ensures |r| == |es|
  {
    if |es| == 0 then []
    else
      assert es == [es[0]] + es[1..];
      Insert(es[0], SortNewestFirst(es[1..], time), time)
  }

  /** The first five of the sorted copy. */
  function RecentEntries(es: seq<Entry>, time: Entry -> int): (r: seq<Entry>)
    ensures |r| == if |es| < 5 then |es| else 5
    ensures r <= SortNewestFirst(es, time)
    ensures NewestFirst(r, time)
  {
    var s := SortNewestFirst(es, time);
    if |s| < 5 then s else s[..5]
  }

  /** Every entry that is not shown is no later than every entry shown. */
  lemma RecentAreLatest(es: seq<Entry>, time: Entry -> int, y: Entry, x: Entry)
    requires y in multiset(es) - multiset(RecentEntries(es, time))
    requires x in RecentEntries(es, time)
    ensures time(x) >= time(y)
  {
    var s := SortNewestFirst(es, time);
    var r := RecentEntries(es, time);
    assert s == r + s[|r|..];
    assert multiset(s) == multiset(r) + multiset(s[|r|..]);
    assert y in s[|r|..];
    var j :| |r| <= j < |s| && s[j] == y;
    var i :| 0 <= i < |r| && r[i] == x;
  }
}
