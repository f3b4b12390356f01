/** The money arithmetic the pages share: sums of item amounts, the
    per-entry expense fold `calcExpenses`, and the summary totals over a list
    of entries. Amounts are whole currency units; a blank or absent amount
    counts as 0 wherever a page writes `x || 0`. */
module Finance {
  import opened Values
  import opened Records
  import opened Paths

  /** `items.reduce((s, i) => s + (i.amount || 0), 0)`, folded left. */
  function ItemsSum(items: seq<Item>): int
  {
    if |items| == 0 then 0 else ItemsSum(items[..|items| - 1]) + Norm(items[|items| - 1].amount)
  }

  /** The fold over items distributes over concatenation. */
  lemma {:induction false} ItemsSumConcat(a: seq<Item>, b: seq<Item>)
    ensures ItemsSum(a + b) == ItemsSum(a) + ItemsSum(b)
  {
    if |b| == 0 {
      assert a + b == a;
    } else {
      assert (a + b)[..|a + b| - 1] == a + b[..|b| - 1];
      ItemsSumConcat(a, b[..|b| - 1]);
    }
  }

  /** Every amount is absent, blank or a number that is not negative. */
  predicate NonNegativeItems(items: seq<Item>)
  {
    forall i | 0 <= i < |items| :: Norm(items[i].amount) >= 0
  }

  lemma {:induction false} ItemsSumNonNegative(items: seq<Item>)
    requires NonNegativeItems(items)
    ensures ItemsSum(items) >= 0
  {
    if |items| > 0 {
      ItemsSumNonNegative(items[..|items| - 1]);
    }
  }

  /** The twelve single fields: a number adds itself, anything else 0. */
  function SinglesSum(x: Expenses): int
  {
    Norm(Single(x, Food)) + Norm(Single(x, Rent)) + Norm(Single(x, Electricity))
    + Norm(Single(x, TravelFuel)) + Norm(Single(x, MobInternet)) + Norm(Single(x, Maintenance))
    + Norm(Single(x, Transport)) + Norm(Single(x, Marketing)) + Norm(Single(x, Consulting))
    + Norm(Single(x, Software)) + Norm(Single(x, Incentive)) + Norm(Single(x, StockClearance))
  }

  /** The fold over `Object.values(expenses)`: a list adds the sum of its
      amounts, a number adds itself. */
  function ExpenseCategories(x: Expenses): int
  {
    ItemsSum(x.staffSalary) + ItemsSum(x.staffAccommodation) + SinglesSum(x) + ItemsSum(x.other)
  }

  /** `calcExpenses(entry)`: purchase amounts plus every expense category. */
  function CalcExpenses(e: Entry): int
  {
    ItemsSum(e.purchaseCost) + ExpenseCategories(e.expenses)
  }

  /** Replacing one item changes the sum by the difference of its amount. */
  lemma ItemsSumUpdate(items: seq<Item>, i: nat, it: Item)
    requires i < |items|
    ensures ItemsSum(items[i := it]) == ItemsSum(items) - Norm(items[i].amount) + Norm(it.amount)
  {
    var pre, post := items[..i], items[i + 1..];
    assert items == pre + [items[i]] + post;
    assert items[i := it] == pre + [it] + post;
    ItemsSumConcat(pre + [items[i]], post);
    ItemsSumConcat(pre, [items[i]]);
    ItemsSumConcat(pre + [it], post);
    ItemsSumConcat(pre, [it]);
    assert ItemsSum([it]) == Norm(it.amount) by {
      assert [it][..0] == [];
    }
    assert ItemsSum([items[i]]) == Norm(items[i].amount) by {
      assert [items[i]][..0] == [];
    }
  }

  /** The leaves `calcExpenses` adds up: every list amount, purchases
      included, and every single field. */
  predicate ExpenseAmount(p: FieldPath)
  {
    p.SingleField? || (p.ItemField? && p.key == AmountKey)
  }

  /** `calcExpenses` counts every expense amount exactly once and nothing
      else: changing one leaf moves it by exactly that leaf's change in
      amount when the leaf is an expense amount, and not at all otherwise. */
  lemma CalcExpensesCountsEachAmountOnce(e: Entry, p: FieldPath, v: Leaf)
    requires Apply(e, p, v).Some?
    ensures CalcExpenses(Apply(e, p, v).value) == CalcExpenses(e)
      + if ExpenseAmount(p) then Norm(v.num) - Norm(Lookup(e, p).value.num) else 0
  {
    match p
    case TotalRevenue =>
    case Date =>
    case SingleField(k) =>
      SinglesSumUpdate(e.expenses, k, v.num);
    case ItemField(l, i, k) =>
      var items := Items(e, l);
      var it := SetItemKey(items[i], k, v);
      ItemsSumUpdate(items, i, it);
      assert Norm(it.amount) - Norm(items[i].amount) == if k == AmountKey then Norm(v.num) - Norm(items[i].amount) else 0;
      CalcExpensesWithItems(e, l, items[i := it]);
  }

  /** Setting one single field changes their sum by that field's change. */
  lemma SinglesSumUpdate(x: Expenses, k: SingleKey, n: Num)
    ensures SinglesSum(x.(singles := x.singles[k := n])) == SinglesSum(x) + Norm(n) - Norm(Single(x, k))
  {
    match k
    case Food =>
    case Rent =>
    case Electricity =>
    case TravelFuel =>
    case MobInternet =>
    case Maintenance =>
    case Transport =>
    case Marketing =>
    case Consulting =>
    case Software =>
    case Incentive =>
    case StockClearance =>
  }

  /** Replacing one list changes `calcExpenses` by the change in its sum. */
  lemma CalcExpensesWithItems(e: Entry, l: ItemList, items: seq<Item>)
    ensures CalcExpenses(WithItems(e, l, items)) == CalcExpenses(e) + ItemsSum(items) - ItemsSum(Items(e, l))
  {
    match l
    case Purchases =>
    case Salaries =>
    case Accommodations =>
    case Others =>
  }

  /** A "+ Add" button adds a blank item, which adds nothing to
      `calcExpenses`. */
  lemma CalcExpensesAddItem(e: Entry, l: ItemList)
    ensures CalcExpenses(AddItem(e, l)) == CalcExpenses(e)
  {
    ItemsSumConcat(Items(e, l), [EmptyItem]);
    assert ItemsSum([EmptyItem]) == 0 by {
      assert [EmptyItem][..0] == [];
    }
    match l
    case Purchases =>
    case Salaries =>
    case Accommodations =>
    case Others =>
  }

  /** `e.totalRevenue || 0`. */
  function Revenue(e: Entry): int
  {
    Norm(e.totalRevenue)
  }

  /** No amount of the entry, in any list or single field, is negative. */
  predicate NonNegativeEntry(e: Entry)
  {
    && NonNegativeItems(e.purchaseCost)
    && NonNegativeItems(e.expenses.staffSalary)
    && NonNegativeItems(e.expenses.staffAccommodation)
    && NonNegativeItems(e.expenses.other)
    && forall k :: Norm(Single(e.expenses, k)) >= 0
  }

  /** With no negative amount the expenses of an entry are not negative,
      and each part is at most the whole. */
  lemma CalcExpensesNonNegative(e: Entry)
    requires NonNegativeEntry(e)
    ensures CalcExpenses(e) >= ItemsSum(e.purchaseCost) >= 0
    ensures CalcExpenses(e) >= ExpenseCategories(e.expenses) >= 0
  {
    ItemsSumNonNegative(e.purchaseCost);
    ItemsSumNonNegative(e.expenses.staffSalary);
    ItemsSumNonNegative(e.expenses.staffAccommodation);
    ItemsSumNonNegative(e.expenses.other);
    assert SinglesSum(e.expenses) >= 0 by {
      assert forall k :: Norm(Single(e.expenses, k)) >= 0;
    }
  }

  // ----- summary totals -------------------------------------------------------------

  /** The `{ revenue, expenses, profit }` accumulator. */
  datatype Totals = Totals(revenue: int, expenses: int, profit: int)

  function AddTotals(a: Totals, b: Totals): Totals
  {
    Totals(a.revenue + b.revenue, a.expenses + b.expenses, a.profit + b.profit)
  }

  lemma AddTotalsSwap(p: Totals, q: Totals, e: Totals)
    ensures AddTotals(AddTotals(p, q), e) == AddTotals(AddTotals(p, e), q)
  {
  }

  /** What one entry adds to the accumulator. */
  function EntryTotals(e: Entry): (t: Totals)
    ensures t.profit == t.revenue - t.expenses
  {
    Totals(Revenue(e), CalcExpenses(e), Revenue(e) - CalcExpenses(e))
  }

  /** The `totals` reduction over the fetched entries: every entry adds its
      revenue, its `calcExpenses` and its profit. The profit column is kept
      as revenue minus expenses, and no entries give all zeros. */
  function SummaryTotals(es: seq<Entry>): (t: Totals)
    ensures t.profit == t.revenue - t.expenses
    ensures |es| == 0 ==> t == Totals(0, 0, 0)
  {
    if |es| == 0 then Totals(0, 0, 0)
    else AddTotals(SummaryTotals(es[..|es| - 1]), EntryTotals(es[|es| - 1]))
  }

  /** The totals of a concatenation are the sums of the totals. */
  lemma {:induction false} SummaryTotalsConcat(a: seq<Entry>, b: seq<Entry>)
    ensures SummaryTotals(a + b) == AddTotals(SummaryTotals(a), SummaryTotals(b))
  {
    InitOfConcat(a, b);
    if |b| > 0 {
      SummaryTotalsConcat(a, b[..|b| - 1]);
    }
  }

  /** The totals of one entry. */
  lemma SummaryTotalsOne(e: Entry)
    ensures SummaryTotals([e]) == EntryTotals(e)
  {
    assert [e][..0] == [];
  }

  /** Reordering the entries leaves the totals unchanged. */
  lemma {:induction false} SummaryTotalsPermutation(a: seq<Entry>, b: seq<Entry>)
    requires multiset(a) == multiset(b)
    ensures SummaryTotals(a) == SummaryTotals(b)
  {
    if |a| == 0 {
      assert |b| == |multiset(b)|;
    } else {
      var x := a[|a| - 1];
      assert x in multiset(b);
      var j :| 0 <= j < |b| && b[j] == x;
      var p, q := SummaryTotals(b[..j]), SummaryTotals(b[j + 1..]);
      MultisetRemove(a, b, j);
      SummaryTotalsPermutation(a[..|a| - 1], b[..j] + b[j + 1..]);
      assert SummaryTotals(a) == AddTotals(AddTotals(p, q), EntryTotals(x)) by {
        SummaryTotalsConcat(b[..j], b[j + 1..]);
      }
      assert SummaryTotals(b) == AddTotals(AddTotals(p, EntryTotals(x)), q) by {
        SummaryTotalsConcat(b[..j] + [x], b[j + 1..]);
        SummaryTotalsConcat(b[..j], [x]);
        SummaryTotalsOne(x);
      }
      AddTotalsSwap(p, q, EntryTotals(x));
    }
  }

  // ----- percentages --------------------------------------------------------------

  /** `base > 0 ? (part / base) * 100 : 0`, the shape of every ROI and
      margin on the pages. */
  function Percent(part: int, base: int): (r: real)
    ensures base <= 0 ==> r == 0.0
    ensures base > 0 ==> r * (base as real) == (part as real) * 100.0
    ensures base > 0 ==> (r > 0.0 <==> part > 0) && (r < 0.0 <==> part < 0)
  {
    if base > 0 then (part as real / base as real) * 100.0 else 0.0
  }
}
