/** Field paths: the addresses of the scalar leaves of an entry, the strings
    the pages build for them (`purchaseCost[i].key`, `expenses.key`,
    `expenses.field[i].key`), reading a leaf, replacing a leaf, and the
    canonical list of an entry's leaves. */
module Paths {
  import opened Values
  import opened Records

  /** The key of an item field. */
  datatype Key = ItemKey | NameKey | ReasonKey | AmountKey

  /** A structured field address. */
  datatype FieldPath =
    | TotalRevenue
    | Date
    | SingleField(single: SingleKey)
    | ItemField(list: ItemList, index: nat, key: Key)

  /** The text key the items of each list carry. */
  function TextKey(l: ItemList): Key
  {
    match l
    case Purchases => ItemKey
    case Salaries => NameKey
    case Accommodations => NameKey
    case Others => ReasonKey
  }

  /** The keys an item of list `l` has. */
  predicate ValidKey(l: ItemList, k: Key)
  {
    k == AmountKey || k == TextKey(l)
  }

  // ----- rendering -----------------------------------------------------------

  function KeyName(k: Key): string
  {
    match k
    case ItemKey => "item"
    case NameKey => "name"
    case ReasonKey => "reason"
    case AmountKey => "amount"
  }

  function SingleName(k: SingleKey): string
  {
    match k
    case Food => "food"
    case Rent => "rent"
    case Electricity => "electricity"
    case TravelFuel => "travelFuel"
    case MobInternet => "mobInternet"
    case Maintenance => "maintenance"
    case Transport => "transport"
    case Marketing => "marketing"
    case Consulting => "consulting"
    case Software => "software"
    case Incentive => "incentive"
    case StockClearance => "stockClearance"
  }

  function ListName(l: ItemList): string
  {
    match l
    case Purchases => "purchaseCost"
    case Salaries => "staffSalary"
    case Accommodations => "staffAccommodation"
    case Others => "other"
  }

  /** `pcPath(i, key)`. */
  function PcPath(i: nat, k: Key): string
  {
    "purchaseCost[" + NatText(i) + "]." + KeyName(k)
  }

  /** `expSinglePath(key)`. */
  function ExpSinglePath(k: SingleKey): string
  {
    "expenses." + SingleName(k)
  }

  /** `expArrPath(field, i, key)`. */
  function ExpArrPath(l: ItemList, i: nat, k: Key): string
  {
    "expenses." + ListName(l) + "[" + NatText(i) + "]." + KeyName(k)
  }

  /** The string form of a path, as the edit page compares it with the
      approved field paths. */
  function Render(p: FieldPath): string
  {
    match p
    case TotalRevenue => "totalRevenue"
    case Date => "date"
    case SingleField(k) => ExpSinglePath(k)
    case ItemField(l, i, k) => if l == Purchases then PcPath(i, k) else ExpArrPath(l, i, k)
  }

  // ----- parsing -------------------------------------------------------------

  function KeyOf(s: string): Option<Key>
  {
    if s == "item" then Some(ItemKey)
    else if s == "name" then Some(NameKey)
    else if s == "reason" then Some(ReasonKey)
    else if s == "amount" then Some(AmountKey)
    else None
  }

  function SingleOf(s: string): Option<SingleKey>
  {
    if s == "food" then Some(Food)
    else if s == "rent" then Some(Rent)
    else if s == "electricity" then Some(Electricity)
    else if s == "travelFuel" then Some(TravelFuel)
    else if s == "mobInternet" then Some(MobInternet)
    else if s == "maintenance" then Some(Maintenance)
    else if s == "transport" then Some(Transport)
    else if s == "marketing" then Some(Marketing)
    else if s == "consulting" then Some(Consulting)
    else if s == "software" then Some(Software)
    else if s == "incentive" then Some(Incentive)
    else if s == "stockClearance" then Some(StockClearance)
    else None
  }

  /** The item lists that live under `expenses.`. */
  function ExpenseListOf(s: string): Option<ItemList>
  {
    if s == "staffSalary" then Some(Salaries)
    else if s == "staffAccommodation" then Some(Accommodations)
    else if s == "other" then Some(Others)
    else None
  }

  /** Parses `digits "]." key`, the tail of an indexed path. */
  function ParseIndexKey(t: string): Option<(nat, Key)>
  {
    var j := IndexOf(t, ']');
    if 0 < j && j + 1 < |t| && t[j + 1] == '.' && AllDigits(t[..j]) then
      match KeyOf(t[j + 2..])
      case Some(k) => Some((DigitsValue(t[..j]), k))
      case None => None
    else None
  }

  /** Reads a field path string; `None` for anything that is not the
      rendering of some path. */
  function ParsePath(s: string): Option<FieldPath>
  {
    if s == "totalRevenue" then Some(TotalRevenue)
    else if s == "date" then Some(Date)
    else
      var j := IndexOf(s, '[');
      if j < |s| then
        var head := s[..j];
        match ParseIndexKey(s[j + 1..])
        case None => None
        case Some((i, k)) =>
          if head == "purchaseCost" then Some(ItemField(Purchases, i, k))
          else if HasPrefix(head, "expenses.") then
            match ExpenseListOf(head[9..])
            case Some(l) => Some(ItemField(l, i, k))
            case None => None
          else None
      else if HasPrefix(s, "expenses.") then
        match SingleOf(s[9..])
        case Some(k) => Some(SingleField(k))
        case None => None
      else None
  }

  lemma KeyNameFacts(k: Key)
    ensures '[' !in KeyName(k) && ']' !in KeyName(k)
    ensures KeyOf(KeyName(k)) == Some(k)
  {
    match k
    case ItemKey =>
    case NameKey =>
    case ReasonKey =>
    case AmountKey =>
  }

  lemma SingleNameFacts(k: SingleKey)
    ensures '[' !in SingleName(k)
    ensures SingleOf(SingleName(k)) == Some(k)
  {
    match k
    case Food =>
    case Rent =>
    case Electricity =>
    case TravelFuel =>
    case MobInternet =>
    case Maintenance =>
    case Transport =>
    case Marketing =>
    case Consulting =>
    case Software =>
    case Incentive =>
    case StockClearance =>
  }

  lemma ListNameFacts(l: ItemList)
    ensures '[' !in ListName(l)
    ensures l != Purchases ==> ExpenseListOf(ListName(l)) == Some(l)
  {
    match l
    case Purchases =>
    case Salaries =>
    case Accommodations =>
    case Others =>
  }

  lemma ParseIndexKeyOfText(i: nat, k: Key)
    ensures ParseIndexKey(NatText(i) + "]." + KeyName(k)) == Some((i, k))
  {
    var n := NatText(i);
    var t := n + "]." + KeyName(k);
    assert t == n + [']'] + ("." + KeyName(k));
    IndexOfAfter(n, ']', "." + KeyName(k));
    assert t[..|n|] == n;
    assert t[|n| + 2..] == KeyName(k);
    KeyNameFacts(k);
    DigitsValueOfNatText(i);
  }

  lemma ParseRenderSingle(k: SingleKey)
    ensures ParsePath(ExpSinglePath(k)) == Some(SingleField(k))
  {
    var s := ExpSinglePath(k);
    SingleNameFacts(k);
    assert s[0] == 'e';
    assert '[' !in s;
    IndexOfAbsent(s, '[');
    assert s[..9] == "expenses.";
    assert s[9..] == SingleName(k);
  }

  lemma ParseRenderPurchase(i: nat, k: Key)
    ensures ParsePath(PcPath(i, k)) == Some(ItemField(Purchases, i, k))
  {
    var s := PcPath(i, k);
    var tail := NatText(i) + "]." + KeyName(k);
    ParseIndexKeyOfText(i, k);
    assert s == "purchaseCost" + ['['] + tail;
    IndexOfAfter("purchaseCost", '[', tail);
    assert s[0] == 'p';
    assert s[..12] == "purchaseCost";
    assert s[13..] == tail;
  }

  lemma ParseRenderExpenseItem(l: ItemList, i: nat, k: Key)
    requires l != Purchases
    ensures ParsePath(ExpArrPath(l, i, k)) == Some(ItemField(l, i, k))
  {
    var s := ExpArrPath(l, i, k);
    var tail := NatText(i) + "]." + KeyName(k);
    var head := "expenses." + ListName(l);
    assert s == head + ['['] + tail;
    assert IndexOf(s, '[') == |head| by {
      ListNameFacts(l);
      IndexOfAfter(head, '[', tail);
    }
    assert s[..|head|] == head && s[|head| + 1..] == tail;
    assert ParseIndexKey(tail) == Some((i, k)) by {
      ParseIndexKeyOfText(i, k);
    }
    assert head != "purchaseCost" by {
      assert head[0] == 'e';
    }
    assert HasPrefix(head, "expenses.") && head[9..] == ListName(l);
    assert ExpenseListOf(ListName(l)) == Some(l) by {
      ListNameFacts(l);
    }
    assert s != "totalRevenue" && s != "date" by {
      assert s[0] == 'e';
    }
  }

  /** Parsing the string form of a path gives the path back. */
  lemma ParseRender(p: FieldPath)
    ensures ParsePath(Render(p)) == Some(p)
  {
    match p
    case TotalRevenue =>
    case Date =>
    case SingleField(k) => ParseRenderSingle(k);
    case ItemField(l, i, k) =>
      if l == Purchases {
        ParseRenderPurchase(i, k);
      } else {
        ParseRenderExpenseItem(l, i, k);
      }
  }

  /** Distinct paths have distinct strings, so a set of path strings
      enables each path on its own. */
  lemma RenderInjective(p: FieldPath, q: FieldPath)
    ensures Render(p) == Render(q) <==> p == q
  {
    if Render(p) == Render(q) {
      ParseRender(p);
      ParseRender(q);
    }
  }

  // ----- reading and replacing a leaf -----------------------------------------

  /** A scalar leaf value. */
  datatype Leaf = TextLeaf(text: string) | NumLeaf(num: Num)

  function ItemLeaf(it: Item, l: ItemList, k: Key): Option<Leaf>
  {
    if k == AmountKey then Some(NumLeaf(it.amount))
    else if k == TextKey(l) then Some(TextLeaf(it.text))
    else None
  }

  /** The leaf at `p`; `None` when an index is out of range or the key is
      not one the list's items carry. */
  function Lookup(r: Entry, p: FieldPath): Option<Leaf>
  {
    match p
    case TotalRevenue => Some(NumLeaf(r.totalRevenue))
    case Date => Some(TextLeaf(r.date))
    case SingleField(k) => Some(NumLeaf(Single(r.expenses, k)))
    case ItemField(l, i, k) =>
      if i < |Items(r, l)| then ItemLeaf(Items(r, l)[i], l, k) else None
  }

  predicate SameKind(a: Leaf, b: Leaf)
  {
    a.TextLeaf? == b.TextLeaf?
  }

  function SetItemKey(it: Item, k: Key, v: Leaf): Item
  {
    match v
    case NumLeaf(n) => it.(amount := n)
    case TextLeaf(t) => it.(text := t)
  }

  /** The entry with the leaf at `p` replaced by `v`; `None` when there is
      no leaf at `p` or `v` is of the other kind. */
  function Apply(r: Entry, p: FieldPath, v: Leaf): (r': Option<Entry>)
    ensures r'.Some? <==> Lookup(r, p).Some? && SameKind(Lookup(r, p).value, v)
  {
    match p
    case TotalRevenue =>
      if v.NumLeaf? then Some(r.(totalRevenue := v.num)) else None
    case Date =>
      if v.TextLeaf? then Some(r.(date := v.text)) else None
    case SingleField(k) =>
      if v.NumLeaf? then
        Some(r.(expenses := r.expenses.(singles := r.expenses.singles[k := v.num])))
      else None
    case ItemField(l, i, k) =>
      if i < |Items(r, l)| && ValidKey(l, k) && (k == AmountKey <==> v.NumLeaf?) then
        Some(WithItems(r, l, Items(r, l)[i := SetItemKey(Items(r, l)[i], k, v)]))
      else None
  }

  /** Reading back a replaced leaf gives the new value, every other leaf
      reads as before, and no list changes length. */
  lemma ApplyLocality(r: Entry, p: FieldPath, v: Leaf, q: FieldPath)
    requires Apply(r, p, v).Some?
    ensures Lookup(Apply(r, p, v).value, p) == Some(v)
    ensures q != p ==> Lookup(Apply(r, p, v).value, q) == Lookup(r, q)
    ensures forall l :: |Items(Apply(r, p, v).value, l)| == |Items(r, l)|
  {
  }

  // ----- the canonical leaf list ------------------------------------------------

  /** The leaves of the first `n` items of list `l`, text key then amount. */
  function ItemPaths(l: ItemList, n: nat): seq<FieldPath>
  {
    if n == 0 then []
    else ItemPaths(l, n - 1) + [ItemField(l, n - 1, TextKey(l)), ItemField(l, n - 1, AmountKey)]
  }

  /** The twelve single fields, in the pages' list order. */
  const SinglePaths: seq<FieldPath> :=
    [SingleField(Food), SingleField(Rent), SingleField(Electricity), SingleField(TravelFuel),
     SingleField(MobInternet), SingleField(Maintenance), SingleField(Transport),
     SingleField(Marketing), SingleField(Consulting), SingleField(Software),
     SingleField(Incentive), SingleField(StockClearance)]

  /** The single paths follow the key list. */
  lemma SinglePathsFollowKeys(j: nat)
    requires j < |SingleKeys|
    ensures |SinglePaths| == |SingleKeys| && SinglePaths[j] == SingleField(SingleKeys[j])
  {
  }

  /** Every leaf of `r`, in the order the edit page visits them: revenue,
      date, purchase items, the twelve single fields, salaries,
      accommodation, other. */
  function LeafPaths(r: Entry): seq<FieldPath>
  {
    [TotalRevenue, Date]
    + ItemPaths(Purchases, |r.purchaseCost|)
    + SinglePaths
    + ItemPaths(Salaries, |r.expenses.staffSalary|)
    + ItemPaths(Accommodations, |r.expenses.staffAccommodation|)
    + ItemPaths(Others, |r.expenses.other|)
  }

  /** Each list holds every path of its shape exactly once. */
  lemma {:induction false} ItemPathsCount(l: ItemList, n: nat, p: FieldPath)
    ensures Count(ItemPaths(l, n), p)
      == if p.ItemField? && p.list == l && p.index < n && ValidKey(l, p.key) then 1 else 0
  {
    if n > 0 {
      ItemPathsCount(l, n - 1, p);
      var tail := [ItemField(l, n - 1, TextKey(l)), ItemField(l, n - 1, AmountKey)];
      CountConcat(ItemPaths(l, n - 1), tail, p);
      CountPair(tail[0], tail[1], p);
    }
  }

  /** The position of each single field in the pages' list. */
  function SingleIndex(k: SingleKey): (i: nat)
    ensures i < |SinglePaths| && SinglePaths[i] == SingleField(k)
  {
    match k
    case Food => 0
    case Rent => 1
    case Electricity => 2
    case TravelFuel => 3
    case MobInternet => 4
    case Maintenance => 5
    case Transport => 6
    case Marketing => 7
    case Consulting => 8
    case Software => 9
    case Incentive => 10
    case StockClearance => 11
  }

  lemma SinglePathsIndexed(j: nat)
    requires j < |SinglePaths|
    ensures SinglePaths[j].SingleField? && SingleIndex(SinglePaths[j].single) == j
  {
    assert j == 0 || j == 1 || j == 2 || j == 3 || j == 4 || j == 5
      || j == 6 || j == 7 || j == 8 || j == 9 || j == 10 || j == 11;
  }

  /** Each single field is listed once. */
  lemma SinglePathsCount(p: FieldPath)
    ensures Count(SinglePaths, p) == if p.SingleField? then 1 else 0
  {
    forall j | 0 <= j < |SinglePaths|
      ensures SinglePaths[j].SingleField? && SingleIndex(SinglePaths[j].single) == j
    {
      SinglePathsIndexed(j);
    }
    if p.SingleField? {
      CountUnique(SinglePaths, p, SingleIndex(p.single));
    } else {
      CountPositive(SinglePaths, p);
    }
  }

  /** A path occurs in the canonical list once if `r` has a leaf there and
      not at all otherwise; in particular no leaf is listed twice. */
  lemma LeafPathsCount(r: Entry, p: FieldPath)
    ensures Count(LeafPaths(r), p) == if Lookup(r, p).Some? then 1 else 0
  {
    var a := [TotalRevenue, Date];
    var b := ItemPaths(Purchases, |r.purchaseCost|);
    var c := SinglePaths;
    var d := ItemPaths(Salaries, |r.expenses.staffSalary|);
    var e := ItemPaths(Accommodations, |r.expenses.staffAccommodation|);
    var f := ItemPaths(Others, |r.expenses.other|);
    CountConcat(a + b + c + d + e, f, p);
    CountConcat(a + b + c + d, e, p);
    CountConcat(a + b + c, d, p);
    CountConcat(a + b, c, p);
    CountConcat(a, b, p);
    CountPair(TotalRevenue, Date, p);
    ItemPathsCount(Purchases, |r.purchaseCost|, p);
    ItemPathsCount(Salaries, |r.expenses.staffSalary|, p);
    ItemPathsCount(Accommodations, |r.expenses.staffAccommodation|, p);
    ItemPathsCount(Others, |r.expenses.other|, p);
    SinglePathsCount(p);
  }

  /** The canonical list holds exactly the paths at which `r` has a leaf. */
  lemma LeafPathsExact(r: Entry, p: FieldPath)
    ensures p in LeafPaths(r) <==> Lookup(r, p).Some?
  {
    LeafPathsCount(r, p);
    CountPositive(LeafPaths(r), p);
  }
}
