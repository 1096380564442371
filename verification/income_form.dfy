/** The income dialog (src/renderer/components/IncomeDialog.tsx): its
    validation schema, its defaults, and the Add Item / Remove operations on
    the deduction list. Select fields are classified into the datatypes of
    the pay-frequency and net-pay modules; an `Unlisted…` value stands for
    any text outside the schema's enumeration. */
module IncomeForm {
  import opened Wrappers
  import opened PayFrequency
  import opened NetPay
  import opened Schedule
  import Lists

  datatype IncomeKind = Employment | OtherRecurring | SimpleIncome | UnlistedIncomeKind

  function IncomeKindOf(text: string): (k: IncomeKind)
    ensures k == UnlistedIncomeKind <==> text !in {"employment", "other_recurring", "simple"}
  {
    if text == "employment" then Employment
    else if text == "other_recurring" then OtherRecurring
    else if text == "simple" then SimpleIncome
    else UnlistedIncomeKind
  }

  /** The values the dialog submits. */
  datatype IncomeFormData = IncomeFormData(
    name: string,
    kind: IncomeKind,
    frequency: Option<Frequency>,
    amount: Option<real>,
    payDate: Option<Instant>,
    nextPaymentDate: Option<Instant>,
    deductions: Option<seq<DeductionItem>>)

  /** The schema of one deduction item. */
  predicate ValidDeduction(item: DeductionItem) {
    && |item.name| >= 1
    && item.kind != UnlistedKind
    && item.format != UnlistedFormat
    && item.value >= 0.0
    && item.frequency != UnlistedFrequency
  }

  /** `formSchema`: a name, a listed type, an optional listed frequency
      (`none` included), an optional non-negative amount, and an optional
      list of valid deduction items. */
  predicate ValidIncomeForm(data: IncomeFormData) {
    && |data.name| >= 1
    && data.kind != UnlistedIncomeKind
    && (data.frequency.None? || data.frequency.value != Unlisted)
    && (data.amount.None? || data.amount.value >= 0.0)
    && (data.deductions.None? || forall i | 0 <= i < |data.deductions.value| :: ValidDeduction(data.deductions.value[i]))
  }

  /** The fields a validation issue can point at. */
  datatype ItemField = ItemName | ItemType | ItemFormat | ItemValue | ItemFrequency
  datatype Field = Name | Type | PayFrequencyField | Amount | DeductionAt(index: nat, field: ItemField)

  /** The issues of one item at position `index`, in schema order. */
  function ItemIssues(index: nat, item: DeductionItem): (issues: seq<Field>)
    ensures forall f | f in issues :: f.DeductionAt? && f.index == index
  {
    (if |item.name| >= 1 then [] else [DeductionAt(index, ItemName)])
    + (if item.kind != UnlistedKind then [] else [DeductionAt(index, ItemType)])
    + (if item.format != UnlistedFormat then [] else [DeductionAt(index, ItemFormat)])
    + (if item.value >= 0.0 then [] else [DeductionAt(index, ItemValue)])
    + (if item.frequency != UnlistedFrequency then [] else [DeductionAt(index, ItemFrequency)])
  }

  /** The issues of the items from position `from` on. */
  function ItemsIssues(items: seq<DeductionItem>, from: nat): (issues: seq<Field>)
    requires from <= |items|
    ensures forall k | 0 <= k < |issues| :: issues[k].DeductionAt? && from <= issues[k].index < |items|
    decreases |items| - from
  {
    if from == |items| then []
    else ItemIssues(from, items[from]) + ItemsIssues(items, from + 1)
  }

  /** Every issue the schema reports for the data, field by field, as the
      schema collects them. */
  function Issues(data: IncomeFormData): seq<Field> {
    FieldIssues(data) + (match data.deductions case None => [] case Some(items) => ItemsIssues(items, 0))
  }

  /** The issues of the fields other than the deduction list. */
  function FieldIssues(data: IncomeFormData): seq<Field> {
    (if |data.name| >= 1 then [] else [Name])
    + (if data.kind != UnlistedIncomeKind then [] else [Type])
    + (if data.frequency.None? || data.frequency.value != Unlisted then [] else [PayFrequencyField])
    + (if data.amount.None? || data.amount.value >= 0.0 then [] else [Amount])
  }

  lemma ItemIssuesEmpty(index: nat, item: DeductionItem)
    ensures ItemIssues(index, item) == [] <==> ValidDeduction(item)
  {
  }

  lemma {:induction false} ItemsIssuesEmpty(items: seq<DeductionItem>, from: nat)
    requires from <= |items|
    ensures ItemsIssues(items, from) == [] <==> forall i | from <= i < |items| :: ValidDeduction(items[i])
    decreases |items| - from
  {
    if from < |items| {
      ItemsIssuesEmpty(items, from + 1);
      ItemIssuesEmpty(from, items[from]);
      if ItemsIssues(items, from) == [] {
        assert ItemIssues(from, items[from]) == [];
        assert ItemsIssues(items, from + 1) == [];
        forall i | from <= i < |items|
          ensures ValidDeduction(items[i])
        {
          if i == from {
          } else {
            assert from + 1 <= i;
          }
        }
      }
    }
  }

  /** The data is valid exactly when the schema reports no issue. */
  lemma NoIssuesIffValid(data: IncomeFormData)
    ensures Issues(data) == [] <==> ValidIncomeForm(data)
  {
    if data.deductions.Some? {
      ItemsIssuesEmpty(data.deductions.value, 0);
    }
  }

  /** An issue about a deduction item names the position of an item that
      fails the item schema. */
  lemma {:induction false} ItemIssuesPointAtInvalidItems(items: seq<DeductionItem>, from: nat, k: nat)
    requires from <= |items| && k < |ItemsIssues(items, from)|
    ensures !ValidDeduction(items[ItemsIssues(items, from)[k].index])
    decreases |items| - from
  {
    var head := ItemIssues(from, items[from]);
    if k < |head| {
      assert ItemsIssues(items, from)[k] == head[k];
      ItemIssuesEmpty(from, items[from]);
    } else {
      assert ItemsIssues(items, from)[k] == ItemsIssues(items, from + 1)[k - |head|];
      ItemIssuesPointAtInvalidItems(items, from + 1, k - |head|);
    }
  }

  /** `defaultValues`: an empty name, type `simple`, monthly, amount 0,
      both dates now, and no deduction items. */
  function DefaultIncomeForm(now: Instant): IncomeFormData {
    IncomeFormData("", SimpleIncome, Some(Monthly), Some(0.0), Some(now), Some(now), Some([]))
  }

  /** The defaults fail only for the missing name. */
  lemma DefaultNeedsOnlyAName(now: Instant, name: string)
    ensures Issues(DefaultIncomeForm(now)) == [Name]
    ensures |name| >= 1 ==> ValidIncomeForm(DefaultIncomeForm(now).(name := name))
  {
  }

  /** The item Add Item appends. */
  const BlankItem: DeductionItem := DeductionItem("", Deduction, Percent, 0.0, PerPaycheck)

  /** Add Item: appends one blank item to the current list (an absent list
      counts as empty). */
  function AddDeductionItem(data: IncomeFormData): (r: IncomeFormData)
    ensures r.deductions.Some?
    ensures |r.deductions.value| == |data.deductions.GetOr([])| + 1
    ensures r.deductions.value[..|r.deductions.value| - 1] == data.deductions.GetOr([])
    ensures r.deductions.value[|r.deductions.value| - 1] == BlankItem
    ensures r == data.(deductions := r.deductions)
  {
    data.(deductions := Some(data.deductions.GetOr([]) + [BlankItem]))
  }

  /** The new item fails the schema until it is named, and naming it is all
      it needs. */
  lemma AddedItemNeedsAName(data: IncomeFormData, name: string)
    ensures !ValidIncomeForm(AddDeductionItem(data))
    ensures Issues(AddDeductionItem(data)) == Issues(data.(deductions := Some(data.deductions.GetOr([]))))
              + [DeductionAt(|data.deductions.GetOr([])|, ItemName)]
    ensures |name| >= 1 ==> ValidDeduction(BlankItem.(name := name))
  {
    var items := data.deductions.GetOr([]);
    var r := AddDeductionItem(data);
    var before := data.(deductions := Some(items));
    ItemsIssuesAppend(items, BlankItem, 0);
    assert ItemIssues(|items|, BlankItem) == [DeductionAt(|items|, ItemName)];
    assert r == before.(deductions := Some(items + [BlankItem]));
    IssuesOfLongerList(before, items, BlankItem);
    assert !ValidDeduction(r.deductions.value[|items|]);
  }

  /** The form's issues with one more item are its issues followed by the
      new item's. */
  lemma IssuesOfLongerList(data: IncomeFormData, items: seq<DeductionItem>, item: DeductionItem)
    requires data.deductions == Some(items)
    requires ItemsIssues(items + [item], 0) == ItemsIssues(items, 0) + ItemIssues(|items|, item)
    ensures Issues(data.(deductions := Some(items + [item]))) == Issues(data) + ItemIssues(|items|, item)
  {
    var head := FieldIssues(data);
    var longer := data.(deductions := Some(items + [item]));
    var a, b := ItemsIssues(items, 0), ItemIssues(|items|, item);
    assert FieldIssues(longer) == head;
    assert (head + a) + b == head + (a + b);
  }

  /** The issues of a list with one more item are those of the list
      followed by the new item's. */
  lemma {:induction false} ItemsIssuesAppend(items: seq<DeductionItem>, item: DeductionItem, from: nat)
    requires from <= |items|
    ensures ItemsIssues(items + [item], from) == ItemsIssues(items, from) + ItemIssues(|items|, item)
    decreases |items| - from
  {
    if from == |items| {
      assert ItemsIssues(items + [item], from + 1) == [];
    } else {
      ItemsIssuesAppend(items, item, from + 1);
      assert (items + [item])[from] == items[from];
    }
  }

  /** Remove: drops the item at `index` from the current list; the
      survivors keep their order. */
  function RemoveDeductionItem(data: IncomeFormData, index: int): (r: IncomeFormData)
    ensures r.deductions.Some?
    ensures 0 <= index < |data.deductions.GetOr([])| ==>
              r.deductions.value == data.deductions.value[..index] + data.deductions.value[index + 1..]
    ensures r == data.(deductions := r.deductions)
  {
    data.(deductions := Some(Lists.RemoveIndex(data.deductions.GetOr([]), index)))
  }

  /** Removing an item never makes a valid form invalid. */
  lemma RemoveKeepsValid(data: IncomeFormData, index: int)
    requires ValidIncomeForm(data)
    ensures ValidIncomeForm(RemoveDeductionItem(data, index))
  {
    var items := data.deductions.GetOr([]);
    if 0 <= index < |items| {
      Lists.RemoveIndexShape(items, index);
    }
  }

  /** Add Item followed by removing the added item gives back the list. */
  lemma RemoveUndoesAdd(data: IncomeFormData)
    ensures RemoveDeductionItem(AddDeductionItem(data), |data.deductions.GetOr([])|)
            == data.(deductions := Some(data.deductions.GetOr([])))
  {
    var items := data.deductions.GetOr([]);
    var added := items + [BlankItem];
    assert added[..|items|] == items;
    assert added[|items| + 1..] == [];
    assert AddDeductionItem(data).deductions.value == added;
    assert Lists.RemoveIndex(added, |items|) == items;
  }
}
