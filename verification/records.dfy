/** The ROI entry: a dated record of revenue, purchase items and expenses.
    The same shape serves as the fetched entry, as the form state of the add
    and edit pages, and as the payload they send. */
module Records {
  import opened Values

  /** One line of an item list. `text` is the item's text key (`item` for a
      purchase, `name` for a staff line, `reason` for another expense); an
      absent text is the empty string, as every page reads it with `|| ""`. */
  datatype Item = Item(text: string, amount: Num)

  /** The item every "+ Add" button appends: all keys blank. */
  const EmptyItem: Item := Item("", Blank)

  /** The four item lists of an entry. */
  datatype ItemList = Purchases | Salaries | Accommodations | Others

  /** The twelve flat numeric expense fields, in the pages' list order. */
  datatype SingleKey =
    | Food | Rent | Electricity | TravelFuel | MobInternet | Maintenance
    | Transport | Marketing | Consulting | Software | Incentive | StockClearance

  const SingleKeys: seq<SingleKey> :=
    [Food, Rent, Electricity, TravelFuel, MobInternet, Maintenance,
     Transport, Marketing, Consulting, Software, Incentive, StockClearance]

  /** The `expenses` object. A single field absent from `singles` reads as blank. */
  datatype Expenses = Expenses(
    staffSalary: seq<Item>,
    staffAccommodation: seq<Item>,
    singles: map<SingleKey, Num>,
    other: seq<Item>)

  datatype Entry = Entry(
    date: string,
    totalRevenue: Num,
    purchaseCost: seq<Item>,
    expenses: Expenses)

  /** `expenses[k]`, blank when the key is absent. */
  function Single(x: Expenses, k: SingleKey): Num
  {
    if k in x.singles then x.singles[k] else Blank
  }

  function Items(r: Entry, l: ItemList): seq<Item>
  {
    match l
    case Purchases => r.purchaseCost
    case Salaries => r.expenses.staffSalary
    case Accommodations => r.expenses.staffAccommodation
    case Others => r.expenses.other
  }

  /** The entry with list `l` replaced and everything else kept. */
  function WithItems(r: Entry, l: ItemList, items: seq<Item>): (r': Entry)
    ensures Items(r', l) == items
    ensures forall l' | l' != l :: Items(r', l') == Items(r, l')
    ensures r'.date == r.date && r'.totalRevenue == r.totalRevenue
    ensures r'.expenses.singles == r.expenses.singles
  {
    match l
    case Purchases => r.(purchaseCost := items)
    case Salaries => r.(expenses := r.expenses.(staffSalary := items))
    case Accommodations => r.(expenses := r.expenses.(staffAccommodation := items))
    case Others => r.(expenses := r.expenses.(other := items))
  }

  /** `addArrayItem(field, emptyObj)` and the "+ Add" buttons: one blank
      item is appended to list `l`; the existing items and everything else
      stay as they were. */
  function AddItem(r: Entry, l: ItemList): (r': Entry)
    ensures |Items(r', l)| == |Items(r, l)| + 1
    ensures Items(r', l)[..|Items(r, l)|] == Items(r, l)
    ensures Items(r', l)[|Items(r, l)|] == EmptyItem
    ensures forall l' | l' != l :: Items(r', l') == Items(r, l')
    ensures r'.date == r.date && r'.totalRevenue == r.totalRevenue
    ensures r'.expenses.singles == r.expenses.singles
  {
    WithItems(r, l, Items(r, l) + [EmptyItem])
  }

  /** `date.split("T")[0] || ""`: the calendar-date part of an ISO timestamp. */
  function DatePrefix(s: string): (d: string)
    ensures 'T' !in d
    ensures d <= s
    ensures |d| < |s| ==> s[|d|] == 'T'
  {
    s[..IndexOf(s, 'T')]
  }

  /** Taking the date part twice changes nothing. */
  lemma DatePrefixIdempotent(s: string)
    ensures DatePrefix(DatePrefix(s)) == DatePrefix(s)
  {
    IndexOfAbsent(DatePrefix(s), 'T');
  }
}
