/** The edit page of an entry: which inputs a user may change, the list of
    `{path, value}` updates a staff member sends, the full payload an owner
    sends, and the dispatch between the two on save. */
module EditEntry {
  import opened Values
  import opened Records
  import opened Paths
  import opened Ledger

  // ----- approval and gating -------------------------------------------------------

  /** `approvedPaths`: the field paths of the fetched approved requests that
      have not been consumed yet. The request status is not looked at: the
      query already asks the server for approved requests only. */
  function ApprovedPaths(rs: seq<Request>): (ps: set<string>)
    ensures forall i | 0 <= i < |rs| && !rs[i].consumed :: rs[i].fieldPath in ps
    ensures forall f | f in ps :: exists i | 0 <= i < |rs| :: !rs[i].consumed && rs[i].fieldPath == f
  {
    if |rs| == 0 then {}
    else
      var last := rs[|rs| - 1];
      ApprovedPaths(rs[..|rs| - 1]) + if last.consumed then {} else {last.fieldPath}
  }

  /** `isDisabled(path)`. */
  predicate IsDisabled(role: Role, approved: set<string>, path: string)
    ensures role == Owner ==> !IsDisabled(role, approved, path)
    ensures role == OtherRole ==> IsDisabled(role, approved, path)
    ensures role == Staff ==> (!IsDisabled(role, approved, path) <==> path in approved)
  {
    match role
    case Owner => false
    case Staff => path !in approved
    case OtherRole => true
  }

  /** More approvals never disable an input: whatever is enabled with some
      approved paths stays enabled with more. */
  lemma ApprovalOnlyEnables(role: Role, a: set<string>, b: set<string>, path: string)
    requires a <= b
    ensures !IsDisabled(role, a, path) ==> !IsDisabled(role, b, path)
  {
  }

  /** For staff, approving the string of one path enables that path and no
      other, because distinct paths render to distinct strings. */
  lemma StaffApprovalIsExact(approved: set<string>, p: FieldPath, q: FieldPath)
    requires approved == {Render(p)}
    ensures !IsDisabled(Staff, approved, Render(q)) <==> q == p
  {
    RenderInjective(p, q);
  }

  // ----- normalised values ---------------------------------------------------------

  /** A value as the diff compares it and as an update carries it. */
  datatype Value = NumValue(n: int) | TextValue(s: string)

  /** One element of the staff `updates` array. */
  datatype Update = Update(path: string, value: Value)

  /** Whether a path holds a number. */
  predicate IsNumeric(p: FieldPath)
  {
    p.TotalRevenue? || p.SingleField? || (p.ItemField? && p.key == AmountKey)
  }

  /** The value at `p` under the diff's normalisation: `Number(x || 0)` for
      numbers, `x || ""` for text. A missing item reads as `{}`, so its
      amount is 0 and its text is empty. */
  function FieldValue(r: Entry, p: FieldPath): (v: Value)
    ensures v.NumValue? <==> IsNumeric(p)
    ensures forall x :: Lookup(r, p) == Some(NumLeaf(x)) ==> v == NumValue(Norm(x))
    ensures forall t :: Lookup(r, p) == Some(TextLeaf(t)) ==> v == TextValue(t)
    ensures Lookup(r, p).None? ==> v == if IsNumeric(p) then NumValue(0) else TextValue("")
  {
    match Lookup(r, p)
    case Some(NumLeaf(x)) => NumValue(Norm(x))
    case Some(TextLeaf(t)) => TextValue(t)
    case None => if IsNumeric(p) then NumValue(0) else TextValue("")
  }

  /** The fetched entry's value at `p` that the form is compared with: the
      date is compared by its calendar-date part, everything else as read. */
  function BaselineValue(entry: Entry, p: FieldPath): Value
  {
    if p == Date then TextValue(DatePrefix(entry.date)) else FieldValue(entry, p)
  }

  /** The form state the page fills in from a fetched entry. */
  function Prefill(entry: Entry): (form: Entry)
    ensures form.date == DatePrefix(entry.date)
    ensures forall l :: Items(form, l) == Items(entry, l)
    ensures form.totalRevenue == entry.totalRevenue && form.expenses == entry.expenses
  {
    entry.(date := DatePrefix(entry.date))
  }

  // ----- the staff change set --------------------------------------------------------

  /** Everything `buildStaffUpdates` reads: the caller's role, the approved
      path strings, the fetched entry and the edited form. */
  datatype Session = Session(role: Role, approved: set<string>, entry: Entry, form: Entry)

  predicate Enabled(s: Session, p: FieldPath)
  {
    !IsDisabled(s.role, s.approved, Render(p))
  }

  predicate Changed(s: Session, p: FieldPath)
  {
    FieldValue(s.form, p) != BaselineValue(s.entry, p)
  }

  /** The update one path contributes. */
  function Emit(s: Session, p: FieldPath): seq<Update>
  {
    if Enabled(s, p) && Changed(s, p) then [Update(Render(p), FieldValue(s.form, p))] else []
  }

  /** The updates for the paths `ps`, in their order: the reference
      definition the loop of `BuildStaffUpdates` is proved against. */
  function ChangeSet(s: Session, ps: seq<FieldPath>): (us: seq<Update>)
    ensures |us| <= |ps|
  {
    if |ps| == 0 then [] else ChangeSet(s, ps[..|ps| - 1]) + Emit(s, ps[|ps| - 1])
  }

  lemma {:induction false} ChangeSetConcat(s: Session, a: seq<FieldPath>, b: seq<FieldPath>)
    ensures ChangeSet(s, a + b) == ChangeSet(s, a) + ChangeSet(s, b)
  {
    if |b| == 0 {
      assert a + b == a;
    } else {
      assert (a + b)[..|a + b| - 1] == a + b[..|b| - 1];
      ChangeSetConcat(s, a, b[..|b| - 1]);
    }
  }

  lemma ChangeSetOne(s: Session, p: FieldPath)
    ensures ChangeSet(s, [p]) == Emit(s, p)
  {
    assert [p][..0] == [];
  }

  /** Soundness and non-triviality: every update comes from one of the
      paths, that path is enabled, its value differs from the baseline, and
      the update carries the form's value under the path's string. */
  lemma {:induction false} ChangeSetSound(s: Session, ps: seq<FieldPath>, u: Update)
    requires u in ChangeSet(s, ps)
    ensures exists p | p in ps :: Enabled(s, p) && Changed(s, p) && u == Update(Render(p), FieldValue(s.form, p))
  {
    var last := ps[|ps| - 1];
    if u in ChangeSet(s, ps[..|ps| - 1]) {
      ChangeSetSound(s, ps[..|ps| - 1], u);
      var p :| p in ps[..|ps| - 1] && Enabled(s, p) && Changed(s, p) && u == Update(Render(p), FieldValue(s.form, p));
      assert p in ps;
    } else {
      assert u in Emit(s, last);
      assert last in ps;
    }
  }

  /** Completeness: the update for `p` with value `v` occurs once for each
      occurrence of `p` in `ps` when `p` is enabled, changed and `v` is its
      form value, and never otherwise. */
  lemma {:induction false} ChangeSetCount(s: Session, ps: seq<FieldPath>, p: FieldPath, v: Value)
    ensures Count(ChangeSet(s, ps), Update(Render(p), v))
      == if Enabled(s, p) && Changed(s, p) && v == FieldValue(s.form, p) then Count(ps, p) else 0
  {
    if |ps| > 0 {
      var last := ps[|ps| - 1];
      var u := Update(Render(p), v);
      ChangeSetCount(s, ps[..|ps| - 1], p, v);
      CountConcat(ChangeSet(s, ps[..|ps| - 1]), Emit(s, last), u);
      RenderInjective(p, last);
      if Emit(s, last) != [] {
        CountOne(Update(Render(last), FieldValue(s.form, last)), u);
      }
    }
  }

  /** One more item adds the updates of its text key and then its amount. */
  lemma ChangeSetItemStep(s: Session, l: ItemList, i: nat)
    ensures ChangeSet(s, ItemPaths(l, i + 1))
      == ChangeSet(s, ItemPaths(l, i)) + Emit(s, ItemField(l, i, TextKey(l))) + Emit(s, ItemField(l, i, AmountKey))
  {
    var textPath := ItemField(l, i, TextKey(l));
    var amountPath := ItemField(l, i, AmountKey);
    ChangeSetConcat(s, ItemPaths(l, i), [textPath, amountPath]);
    ChangeSetConcat(s, [textPath], [amountPath]);
    ChangeSetOne(s, textPath);
    ChangeSetOne(s, amountPath);
  }

  /** The updates of one item list, in index order, text key before amount. */
  method ListUpdates(s: Session, l: ItemList) returns (us: seq<Update>)
    ensures us == ChangeSet(s, ItemPaths(l, |Items(s.form, l)|))
  {
    var n := |Items(s.form, l)|;
    us := [];
    var i := 0;
    while i < n
      invariant 0 <= i <= n
      invariant us == ChangeSet(s, ItemPaths(l, i))
    {
      ChangeSetItemStep(s, l, i);
      us := us + Emit(s, ItemField(l, i, TextKey(l))) + Emit(s, ItemField(l, i, AmountKey));
      i := i + 1;
    }
  }

  /** The updates of the twelve single expense fields, in the pages' order. */
  method SingleUpdates(s: Session) returns (us: seq<Update>)
    ensures us == ChangeSet(s, SinglePaths)
  {
    us := [];
    var j := 0;
    while j < |SingleKeys|
      invariant 0 <= j <= |SingleKeys|
      invariant us == ChangeSet(s, SinglePaths[..j])
    {
      SinglePathsFollowKeys(j);
      var p := SingleField(SingleKeys[j]);
      assert SinglePaths[..j + 1] == SinglePaths[..j] + [p];
      ChangeSetConcat(s, SinglePaths[..j], [p]);
      ChangeSetOne(s, p);
      us := us + Emit(s, p);
      j := j + 1;
    }
    assert SinglePaths[..j] == SinglePaths;
  }

  /** The change set of all leaves, section by section. */
  lemma ChangeSetSections(s: Session)
    ensures ChangeSet(s, LeafPaths(s.form))
      == Emit(s, TotalRevenue) + Emit(s, Date)
       + ChangeSet(s, ItemPaths(Purchases, |Items(s.form, Purchases)|))
       + ChangeSet(s, SinglePaths)
       + ChangeSet(s, ItemPaths(Salaries, |Items(s.form, Salaries)|))
       + ChangeSet(s, ItemPaths(Accommodations, |Items(s.form, Accommodations)|))
       + ChangeSet(s, ItemPaths(Others, |Items(s.form, Others)|))
  {
    var a := [TotalRevenue, Date];
    var b := ItemPaths(Purchases, |Items(s.form, Purchases)|);
    var c := SinglePaths;
    var d := ItemPaths(Salaries, |Items(s.form, Salaries)|);
    var e := ItemPaths(Accommodations, |Items(s.form, Accommodations)|);
    var f := ItemPaths(Others, |Items(s.form, Others)|);
    assert LeafPaths(s.form) == a + b + c + d + e + f;
    ChangeSetConcat(s, a + b + c + d + e, f);
    ChangeSetConcat(s, a + b + c + d, e);
    ChangeSetConcat(s, a + b + c, d);
    ChangeSetConcat(s, a + b, c);
    ChangeSetConcat(s, a, b);
    assert ChangeSet(s, a) == Emit(s, TotalRevenue) + Emit(s, Date) by {
      ChangeSetConcat(s, [TotalRevenue], [Date]);
      ChangeSetOne(s, TotalRevenue);
      ChangeSetOne(s, Date);
    }
  }

  /** Soundness and completeness of the change set of all leaves: every
      update is enabled, and every enabled changed leaf is sent once. */
  lemma LeafChangeSetFacts(s: Session)
    ensures forall u | u in ChangeSet(s, LeafPaths(s.form)) :: !IsDisabled(s.role, s.approved, u.path)
    ensures forall p | Lookup(s.form, p).Some? && Enabled(s, p) && Changed(s, p) ::
      Count(ChangeSet(s, LeafPaths(s.form)), Update(Render(p), FieldValue(s.form, p))) == 1
  {
    forall u | u in ChangeSet(s, LeafPaths(s.form))
      ensures !IsDisabled(s.role, s.approved, u.path)
    {
      ChangeSetSound(s, LeafPaths(s.form), u);
    }
    forall p | Lookup(s.form, p).Some? && Enabled(s, p) && Changed(s, p)
      ensures Count(ChangeSet(s, LeafPaths(s.form)), Update(Render(p), FieldValue(s.form, p))) == 1
    {
      ChangeSetCount(s, LeafPaths(s.form), p, FieldValue(s.form, p));
      LeafPathsCount(s.form, p);
    }
  }

  /** `buildStaffUpdates`: revenue, date, purchase items, single fields,
      salaries, accommodation, other. The result is the change set of the
      form's leaves, in that order; `LeafChangeSetFacts` says what it holds. */
  method BuildStaffUpdates(s: Session) returns (updates: seq<Update>)
    ensures updates == ChangeSet(s, LeafPaths(s.form))
  {
    updates := Emit(s, TotalRevenue) + Emit(s, Date);
    var purchases := ListUpdates(s, Purchases);
    var singles := SingleUpdates(s);
    var salaries := ListUpdates(s, Salaries);
    var accommodation := ListUpdates(s, Accommodations);
    var other := ListUpdates(s, Others);
    updates := updates + purchases + singles + salaries + accommodation + other;
    ChangeSetSections(s);
  }

  /** A staff member with no unconsumed approval, and any user who is
      neither owner nor staff, gets no updates at all. */
  lemma {:induction false} NothingEnabledNoUpdates(s: Session, ps: seq<FieldPath>)
    requires s.role == OtherRole || (s.role == Staff && s.approved == {})
    ensures ChangeSet(s, ps) == []
  {
    if |ps| > 0 {
      NothingEnabledNoUpdates(s, ps[..|ps| - 1]);
    }
  }

  /** Opening the page and saving without touching anything sends nothing. */
  lemma {:induction false} PrefillUnchanged(s: Session, ps: seq<FieldPath>)
    requires s.form == Prefill(s.entry)
    ensures ChangeSet(s, ps) == []
  {
    if |ps| > 0 {
      PrefillUnchanged(s, ps[..|ps| - 1]);
      var p := ps[|ps| - 1];
      assert !Changed(s, p) by {
        if p.ItemField? {
          assert Items(s.form, p.list) == Items(s.entry, p.list);
        }
      }
    }
  }

  /** An item the baseline does not have is compared with `{}`: it counts
      as changed exactly when its text is non-empty or its amount is
      non-zero. */
  lemma BeyondBaseline(s: Session, l: ItemList, i: nat, k: Key)
    requires i >= |Items(s.entry, l)| && i < |Items(s.form, l)| && ValidKey(l, k)
    ensures Changed(s, ItemField(l, i, k))
      <==> if k == AmountKey then Norm(Items(s.form, l)[i].amount) != 0
           else Items(s.form, l)[i].text != ""
  {
  }

  // ----- the owner payload and the save dispatch ---------------------------------

  function NormItem(it: Item): Item
  {
    Item(it.text, Val(Norm(it.amount)))
  }

  function NormItems(items: seq<Item>): (r: seq<Item>)
    ensures |r| == |items|
    ensures forall i | 0 <= i < |items| :: r[i] == NormItem(items[i])
  {
    if |items| == 0 then [] else [NormItem(items[0])] + NormItems(items[1..])
  }

  /** Every single field as a number: `Number(expenses[k] || 0)`. */
  function NormSingles(x: Expenses): map<SingleKey, Num>
  {
    map k | k in SingleKeys :: Val(Norm(Single(x, k)))
  }

  /** `buildOwnerPayload`: the form with every amount converted by
      `Number(x || 0)` and texts and the date kept. */
  function OwnerPayload(form: Entry): (r: Entry)
    ensures forall l :: |Items(r, l)| == |Items(form, l)|
  {
    Entry(form.date, Val(Norm(form.totalRevenue)), NormItems(form.purchaseCost),
      Expenses(NormItems(form.expenses.staffSalary), NormItems(form.expenses.staffAccommodation),
        NormSingles(form.expenses), NormItems(form.expenses.other)))
  }

  /** The owner payload has a leaf exactly where the form has one, holds the
      same normalised value there, and has no blank number left. */
  lemma OwnerPayloadFaithful(form: Entry, p: FieldPath)
    ensures Lookup(OwnerPayload(form), p).Some? <==> Lookup(form, p).Some?
    ensures FieldValue(OwnerPayload(form), p) == FieldValue(form, p)
    ensures Lookup(OwnerPayload(form), p) != Some(NumLeaf(Blank))
  {
    var r := OwnerPayload(form);
    match p
    case SingleField(k) =>
      SingleKeysComplete(k);
    case ItemField(l, i, key) =>
      assert Items(r, l) == NormItems(Items(form, l));
    case TotalRevenue =>
    case Date =>
  }

  lemma SingleKeysComplete(k: SingleKey)
    ensures k in SingleKeys
  {
    SinglePathsFollowKeys(SingleIndex(k));
    assert SingleKeys[SingleIndex(k)] == k;
  }

  /** What pressing Save does. */
  datatype SaveAction = PutEntry(payload: Entry) | PatchEntry(updates: seq<Update>) | NoChanges | NotAuthorized

  /** `handleSave`: the owner always sends the full normalised entry; staff
      send their change set, or nothing when it is empty; anyone else is
      refused. */
  method HandleSave(s: Session) returns (a: SaveAction)
    ensures s.role == Owner <==> a.PutEntry?
    ensures a.PutEntry? ==> a.payload == OwnerPayload(s.form)
    ensures s.role == OtherRole <==> a == NotAuthorized
    ensures a == NoChanges <==> s.role == Staff && ChangeSet(s, LeafPaths(s.form)) == []
    ensures a.PatchEntry? ==> a.updates == ChangeSet(s, LeafPaths(s.form)) && |a.updates| > 0
    ensures a.PatchEntry? ==> forall u | u in a.updates :: u.path in s.approved
  {
    match s.role
    case Owner =>
      a := PutEntry(OwnerPayload(s.form));
    case Staff =>
      var updates := BuildStaffUpdates(s);
      LeafChangeSetFacts(s);
      if |updates| == 0 {
        a := NoChanges;
      } else {
        a := PatchEntry(updates);
      }
    case OtherRole =>
      a := NotAuthorized;
  }
}
