/** The multi-select category filter: which options show as selected, which
    ids a change reports, and how the selected chips are cut down to two plus
    a "+N" counter. */
module CategoryFilter {
  import opened Maybe
  import opened Seqs
  import opened Numbers
  import opened Text

  datatype CategoryOption = CategoryOption(id: string, name: string, color: string)

  /** The chips rendered for the selection: the first ones in full, the rest
      summed up in a counter chip labelled "+N" when there are any. */
  datatype Tags = Tags(visible: seq<CategoryOption>, hiddenCount: nat, counter: Option<string>)

  /** How many chips are shown in full. */
  const VisibleChips := 2

  /** The options shown as selected: the categories whose id is among the
      selected ids, in the order of the category list; ids that name no
      category are ignored. */
  function SelectedValue(categories: seq<CategoryOption>, selectedIds: seq<string>): (r: seq<CategoryOption>)
    ensures IsSubsequence(r, categories)
    ensures forall i :: 0 <= i < |r| ==> r[i].id in selectedIds
    ensures forall i :: 0 <= i < |categories| && categories[i].id in selectedIds ==> categories[i] in r
    ensures forall c :: multiset(r)[c] == if c.id in selectedIds then multiset(categories)[c] else 0
  {
    FilterCounts(categories, (c: CategoryOption) => c.id in selectedIds);
    FilterIsSubsequence(categories, (c: CategoryOption) => c.id in selectedIds);
    FilterMembers(categories, (c: CategoryOption) => c.id in selectedIds);
    Filter(categories, (c: CategoryOption) => c.id in selectedIds)
  }

  /** The ids reported when the selection changes, one per chosen option in
      the order the options were chosen. */
  function ChangedIds(value: seq<CategoryOption>): (r: seq<string>)
    ensures |r| == |value|
    ensures forall i :: 0 <= i < |value| ==> r[i] == value[i].id
  {
    Map(value, (c: CategoryOption) => c.id)
  }

  /** Reporting the shown selection back as the new `selectedIds` leaves the
      shown selection as it was. */
  lemma SelectionRoundTrip(categories: seq<CategoryOption>, selectedIds: seq<string>)
    ensures SelectedValue(categories, ChangedIds(SelectedValue(categories, selectedIds)))
         == SelectedValue(categories, selectedIds)
  {
    var shown := SelectedValue(categories, selectedIds);
    var ids := ChangedIds(shown);
    forall i | 0 <= i < |categories|
      ensures (categories[i].id in ids) == (categories[i].id in selectedIds)
    {
      if categories[i].id in selectedIds {
        var j :| 0 <= j < |shown| && shown[j] == categories[i];
        assert ids[j] == categories[i].id;
      }
      if categories[i].id in ids {
        var j :| 0 <= j < |ids| && ids[j] == categories[i].id;
        assert shown[j].id in selectedIds;
      }
    }
    FilterSameOn(categories, (c: CategoryOption) => c.id in ids, (c: CategoryOption) => c.id in selectedIds);
  }

  /** The chips for a selection: at most the first two in full, a count of the
      rest, and the "+N" chip exactly when that count is positive. */
  function RenderTags(value: seq<CategoryOption>): (r: Tags)
    ensures |r.visible| == if |value| < VisibleChips then |value| else VisibleChips
    ensures r.visible == value[..|r.visible|]
    ensures r.hiddenCount == |value| - |r.visible|
    ensures r.counter.Some? <==> r.hiddenCount > 0
  {
    var visible := Take(value, VisibleChips);
    var hidden := |value| - |visible|;
    Tags(visible, hidden, if hidden > 0 then Some("+" + NatToString(hidden)) else None)
  }

  /** The counter chip's label reads back, as a number, as the count of
      options it stands for; and a counter is shown only once both full chips
      are taken. */
  lemma CounterReadsBack(value: seq<CategoryOption>)
    ensures var r := RenderTags(value);
      r.counter.Some? ==>
        |r.visible| == VisibleChips && ParseNumber(r.counter.value) == Some(r.hiddenCount as real)
  {
    var r := RenderTags(value);
    if r.counter.Some? {
      SignedNatReadsBack(r.hiddenCount);
    }
  }

  /** `Number("+" + n)` is `n`. */
  lemma SignedNatReadsBack(n: nat)
    ensures ParseNumber("+" + NatToString(n)) == Some(n as real)
  {
    var d := NatToString(n);
    var s := "+" + d;
    assert s[1..] == d;
    TrimOfTrimmed(s);
    UnsignedDigits(d);
    DigitsValueOfNatToString(n);
  }
}
