/** The add-entry page: its initial blank form, the per-item and per-field
    edits, the "+ Add" buttons and the payload it posts. */
module AddEntry {
  import opened Values
  import opened Records
  import opened Paths
  import opened Finance
  import EditEntry

  /** The form the page opens with: no date, no revenue, each list holding
      one blank item and every single field blank. */
  const InitialForm: Entry :=
    Entry("", Blank, [EmptyItem],
      Expenses([EmptyItem], [EmptyItem], map k | k in SingleKeys :: Blank, [EmptyItem]))

  /** Every list of the initial form holds exactly one blank item, every
      single field is blank, and revenue and expenses come to 0. */
  lemma InitialFormShape(l: ItemList, k: SingleKey)
    ensures Items(InitialForm, l) == [EmptyItem]
    ensures Single(InitialForm.expenses, k) == Blank
    ensures CalcExpenses(InitialForm) == 0 && Revenue(InitialForm) == 0
  {
    assert ItemsSum([EmptyItem]) == 0 by {
      assert [EmptyItem][..0] == [];
    }
  }

  /** `handleArrayChange(field, i, key, value)` and the inline purchase
      handlers: key `k` of item `i` of list `l` takes `v`. `None` where the
      item or the key does not exist or `v` is of the wrong kind. */
  function ChangeItem(form: Entry, l: ItemList, i: nat, k: Key, v: Leaf): (r: Option<Entry>)
    ensures r.Some? <==> i < |Items(form, l)| && ValidKey(l, k) && (k == AmountKey <==> v.NumLeaf?)
    ensures r.Some? ==> Lookup(r.value, ItemField(l, i, k)) == Some(v)
    ensures r.Some? ==> forall q | q != ItemField(l, i, k) :: Lookup(r.value, q) == Lookup(form, q)
    ensures r.Some? ==> forall l' :: |Items(r.value, l')| == |Items(form, l')|
  {
    var p := ItemField(l, i, k);
    var r := Apply(form, p, v);
    if r.Some? then
      ApplyLocality(form, p, v, p);
      assert forall q | q != p :: Lookup(r.value, q) == Lookup(form, q) by {
        forall q | q != p
          ensures Lookup(r.value, q) == Lookup(form, q)
        {
          ApplyLocality(form, p, v, q);
        }
      }
      r
    else r
  }

  /** A single field's input: that field takes `v`, every other leaf and
      every list stays as it was. */
  function SetSingle(form: Entry, k: SingleKey, v: Num): (r: Entry)
    ensures Single(r.expenses, k) == v
    ensures forall q | q != SingleField(k) :: Lookup(r, q) == Lookup(form, q)
    ensures forall l :: Items(r, l) == Items(form, l)
  {
    form.(expenses := form.expenses.(singles := form.expenses.singles[k := v]))
  }

  /** `handleSubmit`'s payload: revenue and every list amount through
      `Number`, texts and the date as typed, and the single fields passed on
      as they are in the form. */
  function SubmitPayload(form: Entry): (r: Entry)
    ensures r.date == form.date
    ensures r.totalRevenue == Val(Norm(form.totalRevenue))
    ensures forall l :: |Items(r, l)| == |Items(form, l)|
    ensures forall l, i | 0 <= i < |Items(form, l)| :: Items(r, l)[i] == EditEntry.NormItem(Items(form, l)[i])
    ensures forall l :: Items(r, l) == EditEntry.NormItems(Items(form, l))
    ensures forall k :: Single(r.expenses, k) == Single(form.expenses, k)
  {
    var r := SubmitLists(form).(expenses := SubmitLists(form).expenses.(singles := form.expenses.singles));
    assert forall l :: Items(r, l) == Items(SubmitLists(form), l);
    r
  }

  /** The lists of the payload: each list of the form through `NormItems`. */
  function SubmitLists(form: Entry): (r: Entry)
    ensures r.date == form.date && r.totalRevenue == Val(Norm(form.totalRevenue))
    ensures forall l :: Items(r, l) == EditEntry.NormItems(Items(form, l))
  {
    var n := EditEntry.NormItems;
    Entry(form.date, Val(Norm(form.totalRevenue)), n(form.purchaseCost),
      Expenses(n(form.expenses.staffSalary), n(form.expenses.staffAccommodation),
        map[], n(form.expenses.other)))
  }

  /** The add page and the owner's save on the edit page send the same
      values: the same leaves, and at each the same number or text once a
      blank number is read as 0. They differ only in that a blank single
      field stays blank here, where the edit page sends 0. */
  lemma SubmitAgreesWithOwnerPayload(form: Entry, p: FieldPath)
    ensures Lookup(SubmitPayload(form), p).Some? <==> Lookup(EditEntry.OwnerPayload(form), p).Some?
    ensures EditEntry.FieldValue(SubmitPayload(form), p) == EditEntry.FieldValue(EditEntry.OwnerPayload(form), p)
    ensures !p.SingleField? ==> Lookup(SubmitPayload(form), p) == Lookup(EditEntry.OwnerPayload(form), p)
  {
    EditEntry.OwnerPayloadFaithful(form, p);
    var r := SubmitPayload(form);
    match p
    case ItemField(l, i, k) =>
      OwnerPayloadLists(form, l);
      assert Items(r, l) == Items(EditEntry.OwnerPayload(form), l);
    case SingleField(k) =>
      assert Lookup(r, p) == Some(NumLeaf(Single(form.expenses, k)));
    case TotalRevenue =>
    case Date =>
  }

  lemma OwnerPayloadLists(form: Entry, l: ItemList)
    ensures Items(EditEntry.OwnerPayload(form), l) == EditEntry.NormItems(Items(form, l))
  {
  }

  /** Submitting the untouched form posts blank single fields, where the
      edit page would post 0 for each. */
  lemma InitialSubmitKeepsBlanks(k: SingleKey)
    ensures Lookup(SubmitPayload(InitialForm), SingleField(k)) == Some(NumLeaf(Blank))
    ensures Lookup(EditEntry.OwnerPayload(InitialForm), SingleField(k)) == Some(NumLeaf(Val(0)))
  {
    EditEntry.SingleKeysComplete(k);
  }
}
