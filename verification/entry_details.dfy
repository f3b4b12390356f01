/** The entry details page: the figures it shows, when the Edit button
    appears, and the staff form for requesting an edit: which field paths it
    offers, when it can be sent, and what it sends. */
module EntryDetails {
  import opened Values
  import opened Records
  import opened Paths
  import opened Ledger
  import opened Finance
  import EditEntry

  // ----- figures --------------------------------------------------------------------

  /** The figures of the details table. */
  datatype Figures = Figures(gross: int, commission: real, operations: int, net: real)

  /** Gross income is revenue minus purchases, the commission is 9% of it,
      and the net profit takes the commission and every expense category
      off the gross. */
  function EntryFigures(e: Entry): (f: Figures)
    ensures f.gross == Revenue(e) - ItemsSum(e.purchaseCost)
    ensures f.operations == ExpenseCategories(e.expenses)
    ensures f.commission * 100.0 == (f.gross as real) * 9.0
    ensures f.net == (f.gross as real) * 0.91 - (f.operations as real)
  {
    var gross := Revenue(e) - ItemsSum(e.purchaseCost);
    var commission := (gross as real * 9.0) / 100.0;
    var operations := ExpenseCategories(e.expenses);
    Figures(gross, commission, operations, gross as real - (commission + operations as real))
  }

  /** The details page's net profit is the summary page's profit of the
      same entry less the commission, which the summary does not charge. */
  lemma NetProfitIsSummaryProfitLessCommission(e: Entry)
    ensures EntryFigures(e).net == (EntryTotals(e).profit as real) - EntryFigures(e).commission
  {
  }

  // ----- the Edit button ------------------------------------------------------------

  /** The owner always sees Edit; staff see it once they have any approved
      request of their own for the entry, consumed or not. */
  predicate EditButtonVisible(role: Role, myApproved: seq<Request>)
    ensures role == Owner ==> EditButtonVisible(role, myApproved)
    ensures role == OtherRole ==> !EditButtonVisible(role, myApproved)
    ensures role == Staff ==> (EditButtonVisible(role, myApproved) <==> myApproved != [])
  {
    role == Owner || (role == Staff && |myApproved| > 0)
  }

  /** When every approved request has already been consumed, staff still
      see the Edit button, but the edit page enables nothing and a save
      sends no update. */
  lemma EditVisibleButNothingEditable(myApproved: seq<Request>, s: EditEntry.Session)
    requires |myApproved| > 0
    requires forall i | 0 <= i < |myApproved| :: myApproved[i].consumed
    requires s.role == Staff && s.approved == EditEntry.ApprovedPaths(myApproved)
    ensures EditButtonVisible(Staff, myApproved)
    ensures s.approved == {}
    ensures forall p :: !EditEntry.Enabled(s, p)
    ensures EditEntry.ChangeSet(s, LeafPaths(s.form)) == []
  {
    EditEntry.NothingEnabledNoUpdates(s, LeafPaths(s.form));
  }

  // ----- the request form -----------------------------------------------------------

  datatype RequestForm = RequestForm(fieldPath: string, newValue: string, reason: string)

  /** The form after Clear and after a request was sent. */
  const EmptyForm: RequestForm := RequestForm("", "", "")

  /** The Send button is enabled when a path, a new value and a reason are
      all filled in. */
  predicate CanSend(form: RequestForm)
  {
    form.fieldPath != "" && form.newValue != "" && form.reason != ""
  }

  /** Choosing a category clears the form and puts the category name in
      the field path. */
  function SelectCategory(form: RequestForm, category: string): (f: RequestForm)
    ensures f.fieldPath == category && !CanSend(f)
  {
    RequestForm(category, "", "")
  }

  /** Choosing in a field select replaces the path only. */
  function SelectField(form: RequestForm, path: string): (f: RequestForm)
    ensures f.fieldPath == path && f.newValue == form.newValue && f.reason == form.reason
  {
    form.(fieldPath := path)
  }

  /** The names of the category select. */
  predicate IsCategoryName(c: string)
  {
    c == "revenue" || c == "purchaseCost" || c == "expenses" || c == "staff"
  }

  /** A category name is not the path of any leaf. */
  lemma CategoryIsNotALeaf(c: string)
    requires IsCategoryName(c)
    ensures ParsePath(c) == None
    ensures forall p :: Render(p) != c
  {
    assert '[' !in c;
    IndexOfAbsent(c, '[');
    assert !HasPrefix(c, "expenses.") by {
      if c == "expenses" || c == "revenue" || c == "staff" {
        assert |c| < 9;
      } else {
        assert c[0] != "expenses."[0];
      }
    }
    forall p
      ensures Render(p) != c
    {
      ParseRender(p);
    }
  }

  /** The guard does not ask for a leaf: a bare category, with a value and
      a reason typed in, can be sent. */
  lemma GuardAcceptsCategory(form: RequestForm, category: string, value: string, reason: string)
    requires IsCategoryName(category) && value != "" && reason != ""
    ensures CanSend(SelectCategory(form, category).(newValue := value, reason := reason))
    ensures ParsePath(category) == None
  {
    CategoryIsNotALeaf(category);
  }

  // ----- the old-value snapshot and the payload ---------------------------------------

  /** What `get(entry, fieldPath)` yields on the paths the page builds: the
      leaf a path names, `undefined` for a missing leaf, the whole array or
      object for "purchaseCost" and "expenses"; the initial `""` when no
      path is chosen. */
  datatype OldValue = EmptyText | LeafValue(leaf: Leaf) | Missing | Subtree

  function Snapshot(e: Entry, path: string): (v: OldValue)
    ensures v == EmptyText <==> path == ""
    ensures v.LeafValue? <==> path != "" && ParsePath(path).Some? && Lookup(e, ParsePath(path).value).Some?
    ensures v.LeafValue? ==> Lookup(e, ParsePath(path).value) == Some(v.leaf)
    ensures v == Subtree <==> path == "purchaseCost" || path == "expenses"
  {
    if path == "" then EmptyText
    else
      match ParsePath(path)
      case Some(p) => if Lookup(e, p).Some? then LeafValue(Lookup(e, p).value) else Missing
      case None => if path == "purchaseCost" || path == "expenses" then Subtree else Missing
  }

  /** The snapshot of a rendered path is the leaf it names, if any. */
  lemma SnapshotOfPath(e: Entry, p: FieldPath)
    ensures Snapshot(e, Render(p)) == if Lookup(e, p).Some? then LeafValue(Lookup(e, p).value) else Missing
  {
    ParseRender(p);
    assert |Render(p)| > 0 by {
      match p
      case TotalRevenue =>
      case Date =>
      case SingleField(k) =>
      case ItemField(l, i, k) =>
    }
  }

  /** The body of the edit-request POST. */
  datatype RequestPayload = RequestPayload(entryId: string, fieldPath: string, oldValue: OldValue, newValue: string, reason: string)

  /** Pressing Send: nothing when the button is disabled, otherwise the
      form with the entry's current value at the path. `getLoads` says
      whether `require("lodash.get")` yields the library; when it throws,
      the handler's `catch` leaves the old value at its initial `""`. */
  function Send(entryId: string, e: Entry, form: RequestForm, getLoads: bool): (r: Option<RequestPayload>)
    ensures r.Some? <==> CanSend(form)
    ensures r.Some? ==> (r.value.entryId == entryId && r.value.fieldPath == form.fieldPath
      && r.value.newValue == form.newValue && r.value.reason == form.reason)
    ensures r.Some? && getLoads ==> r.value.oldValue == Snapshot(e, form.fieldPath) && r.value.oldValue != EmptyText
    ensures r.Some? && !getLoads ==> r.value.oldValue == EmptyText
  {
    if CanSend(form) then
      var oldValue := if getLoads then Snapshot(e, form.fieldPath) else EmptyText;
      Some(RequestPayload(entryId, form.fieldPath, oldValue, form.newValue, form.reason))
    else None
  }

  // ----- the options ------------------------------------------------------------------

  /** Some list item with a positive amount. */
  predicate AnyPositive(items: seq<Item>)
  {
    exists i | 0 <= i < |items| :: Positive(items[i].amount)
  }

  /** The test behind the Expenses category: some expense list has a
      positive amount, or some single field is positive. */
  predicate HasPositiveExpense(x: Expenses)
  {
    AnyPositive(x.staffSalary) || AnyPositive(x.staffAccommodation) || AnyPositive(x.other)
    || exists k :: Positive(Single(x, k))
  }

  /** The category select: Revenue always, Purchase Cost for a non-empty
      purchase list, Expenses when some expense is positive, Staff when a
      staff list is non-empty. */
  function CategoryOptions(e: Entry): (cs: seq<string>)
    ensures "revenue" in cs
    ensures "purchaseCost" in cs <==> |e.purchaseCost| > 0
    ensures "expenses" in cs <==> HasPositiveExpense(e.expenses)
    ensures "staff" in cs <==> |e.expenses.staffSalary| > 0 || |e.expenses.staffAccommodation| > 0
    ensures forall c | c in cs :: IsCategoryName(c)
  {
    ["revenue"]
    + (if |e.purchaseCost| > 0 then ["purchaseCost"] else [])
    + (if HasPositiveExpense(e.expenses) then ["expenses"] else [])
    + (if |e.expenses.staffSalary| > 0 || |e.expenses.staffAccommodation| > 0 then ["staff"] else [])
  }

  /** The Expenses select: the single fields, in list order, whose value is
      truthy. Lists are skipped. */
  function ExpenseOptionPaths(x: Expenses, ps: seq<FieldPath>): (os: seq<FieldPath>)
    ensures forall p :: p in os <==> p in ps && p.SingleField? && Truthy(Single(x, p.single))
  {
    if |ps| == 0 then []
    else
      var p := ps[|ps| - 1];
      ExpenseOptionPaths(x, ps[..|ps| - 1]) + if p.SingleField? && Truthy(Single(x, p.single)) then [p] else []
  }

  /** A single field is offered exactly when its value is truthy. */
  lemma ExpenseOptionsExact(x: Expenses, p: FieldPath)
    ensures p in ExpenseOptionPaths(x, SinglePaths) <==> p.SingleField? && Truthy(Single(x, p.single))
  {
    SinglePathsCount(p);
    CountPositive(SinglePaths, p);
  }

  /** The options of one staff list: an item's name when it is non-empty,
      its amount when it is positive. */
  function StaffListOptions(items: seq<Item>, l: ItemList): (os: seq<FieldPath>)
    ensures forall p :: p in os <==> (p.ItemField? && p.list == l && p.index < |items|
      && ((p.key == NameKey && items[p.index].text != "") || (p.key == AmountKey && Positive(items[p.index].amount))))
  {
    if |items| == 0 then []
    else
      var n := |items| - 1;
      StaffListOptions(items[..n], l)
      + (if items[n].text != "" then [ItemField(l, n, NameKey)] else [])
      + (if Positive(items[n].amount) then [ItemField(l, n, AmountKey)] else [])
  }

  /** The Staff select: salaries, then accommodation. */
  function StaffOptionPaths(e: Entry): seq<FieldPath>
  {
    StaffListOptions(e.expenses.staffSalary, Salaries) + StaffListOptions(e.expenses.staffAccommodation, Accommodations)
  }

  /** The Purchase Cost select as the page builds it: the items with a
      positive amount are numbered from 0 after filtering, and each offers
      `name` and `amount`. */
  function PurchaseOptionsAsWritten(e: Entry): seq<string>
  {
    FilteredPurchaseOptions(|PositiveItems(e.purchaseCost)|)
  }

  /** The items with a positive amount, in order. */
  function PositiveItems(items: seq<Item>): (r: seq<Item>)
    ensures |r| <= |items|
    ensures forall i | 0 <= i < |r| :: Positive(r[i].amount)
  {
    if |items| == 0 then []
    else PositiveItems(items[..|items| - 1]) + if Positive(items[|items| - 1].amount) then [items[|items| - 1]] else []
  }

  /** The filter keeps input order: filtering a concatenation concatenates
      the filtered parts. */
  lemma {:induction false} PositiveItemsConcat(a: seq<Item>, b: seq<Item>)
    ensures PositiveItems(a + b) == PositiveItems(a) + PositiveItems(b)
  {
    InitOfConcat(a, b);
    if |b| > 0 {
      PositiveItemsConcat(a, b[..|b| - 1]);
    }
  }

  /** Each item with a positive amount is kept as often as it occurs, and
      every other item is dropped. */
  lemma {:induction false} PositiveItemsCount(items: seq<Item>, x: Item)
    ensures Count(PositiveItems(items), x) == if Positive(x.amount) then Count(items, x) else 0
  {
    if |items| > 0 {
      var last := items[|items| - 1];
      var kept := if Positive(last.amount) then [last] else [];
      PositiveItemsCount(items[..|items| - 1], x);
      CountConcat(PositiveItems(items[..|items| - 1]), kept, x);
      if Positive(last.amount) {
        CountOne(last, x);
      }
    }
  }

  /** The option strings for filtered positions `0..n-1`. */
  function FilteredPurchaseOptions(n: nat): (os: seq<string>)
    ensures |os| == 2 * n
    ensures forall i | 0 <= i < n :: os[2 * i] == PcPath(i, NameKey) && os[2 * i + 1] == PcPath(i, AmountKey)
  {
    if n == 0 then [] else FilteredPurchaseOptions(n - 1) + [PcPath(n - 1, NameKey), PcPath(n - 1, AmountKey)]
  }

  /** A `name` option of the purchase select names no input of the edit
      page, whose purchase items carry `item`: approving it enables
      nothing. */
  lemma PurchaseNameOptionUnlocksNothing(i: nat, form: Entry, q: FieldPath)
    requires Lookup(form, q).Some?
    ensures Render(q) != PcPath(i, NameKey)
    ensures IsDisabledForStaff({PcPath(i, NameKey)}, q)
  {
    RenderInjective(q, ItemField(Purchases, i, NameKey));
  }

  /** Staff gating as the edit page applies it to the input of `q`. */
  predicate IsDisabledForStaff(approved: set<string>, q: FieldPath)
  {
    EditEntry.IsDisabled(Staff, approved, Render(q))
  }

  /** With a zero-amount item before a positive one, the page offers the
      positive item under index 0, so a request for it records, and an
      approval unlocks, the amount of the zero item instead. */
  lemma PurchaseIndexShift()
    ensures var e := Entry("2024-05-01", Val(100), [Item("rice", Val(0)), Item("oil", Val(5))], Expenses([], [], map[], []));
      && PurchaseOptionsAsWritten(e) == [PcPath(0, NameKey), PcPath(0, AmountKey)]
      && Snapshot(e, PcPath(0, AmountKey)) == LeafValue(NumLeaf(Val(0)))
      && !IsDisabledForStaff({PcPath(0, AmountKey)}, ItemField(Purchases, 0, AmountKey))
      && IsDisabledForStaff({PcPath(0, AmountKey)}, ItemField(Purchases, 1, AmountKey))
      && PurchaseOptionPaths(e.purchaseCost) == [ItemField(Purchases, 1, ItemKey), ItemField(Purchases, 1, AmountKey)]
  {
    var e := Entry("2024-05-01", Val(100), [Item("rice", Val(0)), Item("oil", Val(5))], Expenses([], [], map[], []));
    var items := e.purchaseCost;
    assert PositiveItems(items) == [Item("oil", Val(5))] by {
      assert items[..1] == [Item("rice", Val(0))];
      assert items[..1][..0] == [];
    }
    assert FilteredPurchaseOptions(0) == [];
    SnapshotOfPath(e, ItemField(Purchases, 0, AmountKey));
    RenderInjective(ItemField(Purchases, 1, AmountKey), ItemField(Purchases, 0, AmountKey));
    assert PurchaseOptionPaths(items) == [ItemField(Purchases, 1, ItemKey), ItemField(Purchases, 1, AmountKey)] by {
      assert items[..1] == [Item("rice", Val(0))];
      assert items[..1][..0] == [];
    }
  }

  /** The Purchase Cost select as the edit page can use it: every item
      with a positive amount, under its own index, offering `item` and
      `amount`. */
  function PurchaseOptionPaths(items: seq<Item>): (os: seq<FieldPath>)
    ensures forall p :: p in os <==> (p.ItemField? && p.list == Purchases && p.index < |items|
      && ValidKey(Purchases, p.key) && Positive(items[p.index].amount))
  {
    if |items| == 0 then []
    else
      var n := |items| - 1;
      PurchaseOptionPaths(items[..n])
      + if Positive(items[n].amount) then [ItemField(Purchases, n, ItemKey), ItemField(Purchases, n, AmountKey)] else []
  }

  /** The field options of a category. */
  function FieldOptions(e: Entry, category: string): seq<FieldPath>
  {
    if category == "revenue" then [TotalRevenue, Date]
    else if category == "purchaseCost" then PurchaseOptionPaths(e.purchaseCost)
    else if category == "expenses" then ExpenseOptionPaths(e.expenses, SinglePaths)
    else if category == "staff" then StaffOptionPaths(e)
    else []
  }

  /** Every field a staff member can request names a leaf of the entry, is
      an input of the edit page opened on that entry, and its approval
      enables that input and no other. */
  lemma OfferedOptionsAreEditable(e: Entry, category: string, p: FieldPath, q: FieldPath)
    requires p in FieldOptions(e, category)
    ensures Lookup(e, p).Some?
    ensures p in LeafPaths(EditEntry.Prefill(e))
    ensures Snapshot(e, Render(p)) == LeafValue(Lookup(e, p).value)
    ensures !IsDisabledForStaff({Render(p)}, q) <==> q == p
  {
    if category == "expenses" {
      ExpenseOptionsExact(e.expenses, p);
    }
    var form := EditEntry.Prefill(e);
    assert Lookup(form, p).Some? by {
      if p.ItemField? {
        assert Items(form, p.list) == Items(e, p.list);
      }
    }
    LeafPathsExact(form, p);
    SnapshotOfPath(e, p);
    EditEntry.StaffApprovalIsExact({Render(p)}, p, q);
  }
}
