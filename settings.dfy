/** The settings dialog: its sections are sorted so that the one keyed
    "categories" comes first, one section at a time is expanded, and closing
    the dialog re-opens the first section. */
module Settings {
  import opened Maybe
  import opened Seqs

  datatype Section = Section(key: string, title: string)

  /** How the sections are laid out: a single section plainly, any other
      number as an accordion list. */
  datatype Layout = Plain(section: Section) | Accordion(sections: seq<Section>)

  const CategoriesKey := "categories"

  predicate IsCategories(s: Section)
  {
    s.key == CategoriesKey
  }

  predicate IsOther(s: Section)
  {
    s.key != CategoriesKey
  }

  /** The comparator handed to `Array.prototype.sort`: a "categories" section
      sorts before anything, anything sorts after one, all else is a tie. */
  function Compare(a: Section, b: Section): int
  {
    if IsCategories(a) then -1 else if IsCategories(b) then 1 else 0
  }

  /** One step of a stable insertion sort: `x`, which came after every element
      of `sorted`, moves left only past elements that compare greater. */
  function Insert(sorted: seq<Section>, x: Section): seq<Section>
  {
    if sorted == [] then [x]
    else if Compare(sorted[|sorted| - 1], x) > 0 then
      Insert(sorted[..|sorted| - 1], x) + [sorted[|sorted| - 1]]
    else sorted + [x]
  }

  /** `Array.prototype.sort` with `Compare`, which is stable (section 23.1.3.30
      of ECMA-262, 2023 edition): the sections inserted one by one. */
  function Sort(sections: seq<Section>): seq<Section>
  {
    if sections == [] then []
    else Insert(Sort(sections[..|sections| - 1]), sections[|sections| - 1])
  }

  /** The order the dialog shows: every "categories" section, then every other
      section, each group in its original order. */
  function CategoriesFirst(sections: seq<Section>): seq<Section>
  {
    Filter(sections, IsCategories) + Filter(sections, IsOther)
  }

  /** Inserting into a list already in "categories first" order keeps it so. */
  lemma {:induction false} InsertIntoPartition(cats: seq<Section>, others: seq<Section>, x: Section)
    requires forall i :: 0 <= i < |cats| ==> IsCategories(cats[i])
    requires forall i :: 0 <= i < |others| ==> IsOther(others[i])
    ensures Insert(cats + others, x)
         == if IsCategories(x) then cats + [x] + others else cats + others + [x]
    decreases |others|
  {
    var s := cats + others;
    if others == [] {
      assert s == cats;
      if cats != [] {
        assert Compare(s[|s| - 1], x) < 0;
      }
    } else {
      var init, last := others[..|others| - 1], others[|others| - 1];
      assert s[|s| - 1] == last;
      assert s[..|s| - 1] == cats + init;
      if IsCategories(x) {
        assert Compare(last, x) > 0;
        assert Insert(s, x) == Insert(cats + init, x) + [last];
        InsertIntoPartition(cats, init, x);
        assert others == init + [last];
      } else {
        assert Compare(last, x) == 0;
      }
    }
  }

  /** The sort puts the "categories" sections first and otherwise keeps the
      original order. */
  lemma {:induction false} SortIsCategoriesFirst(sections: seq<Section>)
    ensures Sort(sections) == CategoriesFirst(sections)
  {
    if sections != [] {
      var init, x := sections[..|sections| - 1], sections[|sections| - 1];
      assert sections == init + [x];
      SortIsCategoriesFirst(init);
      InsertIntoPartition(Filter(init, IsCategories), Filter(init, IsOther), x);
      CategoriesFirstSnoc(init, x);
    }
  }

  /** Adding a section at the end of the input adds it at the end of its
      group. */
  lemma CategoriesFirstSnoc(init: seq<Section>, x: Section)
    ensures CategoriesFirst(init + [x])
         == if IsCategories(x) then Filter(init, IsCategories) + [x] + Filter(init, IsOther)
            else Filter(init, IsCategories) + Filter(init, IsOther) + [x]
  {
    var cats, others := Filter(init, IsCategories), Filter(init, IsOther);
    FilterAppend(init, [x], IsCategories);
    FilterAppend(init, [x], IsOther);
    assert [x][1..] == [];
    if IsCategories(x) {
      assert Filter([x], IsCategories) == [x];
      assert Filter([x], IsOther) == [];
      calc {
        CategoriesFirst(init + [x]);
        (cats + [x]) + (others + []);
        { assert others + [] == others; }
        cats + [x] + others;
      }
    } else {
      assert Filter([x], IsCategories) == [];
      assert Filter([x], IsOther) == [x];
      calc {
        CategoriesFirst(init + [x]);
        (cats + []) + (others + [x]);
        { assert cats + [] == cats; }
        cats + others + [x];
      }
    }
  }

  lemma SortPermutes(sections: seq<Section>)
    ensures multiset(Sort(sections)) == multiset(sections)
    ensures |Sort(sections)| == |sections|
  {
    SortIsCategoriesFirst(sections);
    FilterPartition(sections, IsCategories, IsOther);
    assert |multiset(Sort(sections))| == |multiset(sections)|;
  }

  /** The ordered sections are a permutation of the given ones; a
      "categories" section, when there is one, comes first; and the other
      sections keep their relative order. */
  lemma OrderedSections(sections: seq<Section>)
    ensures multiset(Sort(sections)) == multiset(sections)
    ensures (exists i :: 0 <= i < |sections| && IsCategories(sections[i])) ==>
      Sort(sections) != [] && IsCategories(Sort(sections)[0])
    ensures Filter(Sort(sections), IsOther) == Filter(sections, IsOther)
  {
    SortPermutes(sections);
    if exists i :: 0 <= i < |sections| && IsCategories(sections[i]) {
      var i :| 0 <= i < |sections| && IsCategories(sections[i]);
      CategoriesComeFirst(sections, i);
    }
    OthersKeepOrder(sections);
  }

  lemma CategoriesComeFirst(sections: seq<Section>, i: nat)
    requires i < |sections| && IsCategories(sections[i])
    ensures Sort(sections) != [] && IsCategories(Sort(sections)[0])
  {
    SortIsCategoriesFirst(sections);
    FilterMembers(sections, IsCategories);
    var cats := Filter(sections, IsCategories);
    assert sections[i] in cats;
    assert Sort(sections)[0] == cats[0];
  }

  lemma OthersKeepOrder(sections: seq<Section>)
    ensures Filter(Sort(sections), IsOther) == Filter(sections, IsOther)
  {
    SortIsCategoriesFirst(sections);
    var cats, others := Filter(sections, IsCategories), Filter(sections, IsOther);
    FilterAppend(cats, others, IsOther);
    FilterNone(cats, IsOther);
    FilterKeepsAll(others, IsOther);
  }

  lemma {:induction false} FilterNone<T>(s: seq<T>, p: T -> bool)
    requires forall i :: 0 <= i < |s| ==> !p(s[i])
    ensures Filter(s, p) == []
  {
    if s != [] {
      FilterNone(s[1..], p);
    }
  }

  /** The section expanded when the dialog opens or is closed: the first
      ordered one when there are at least two, none otherwise. */
  function InitialExpanded(sections: seq<Section>): (r: Option<string>)
    ensures r.Some? <==> |sections| >= 2
    ensures r.Some? ==> r.value == Sort(sections)[0].key
  {
    SortPermutes(sections);
    var ordered := Sort(sections);
    if |ordered| >= 2 then Some(ordered[0].key) else None
  }

  /** A single section renders plainly; none or several as an accordion. */
  function RenderLayout(sections: seq<Section>): (r: Layout)
    ensures r.Plain? <==> |sections| == 1
    ensures r.Plain? ==> r.section == sections[0]
    ensures r.Accordion? ==> r.sections == CategoriesFirst(sections)
  {
    SortIsCategoriesFirst(sections);
    SortPermutes(sections);
    var ordered := Sort(sections);
    if |ordered| == 1 then
      assert multiset(ordered) == multiset{sections[0]};
      assert ordered[0] in multiset(ordered);
      Plain(ordered[0])
    else Accordion(ordered)
  }

  /** The dialog's state: its sections, the expanded one, and how many times
      it has asked its owner to close it. */
  class Dialog {
    const sections: seq<Section>
    var expanded: Option<string>
    var closeRequests: nat

    constructor (sections: seq<Section>)
      ensures this.sections == sections
      ensures expanded == InitialExpanded(sections) && closeRequests == 0
    {
      this.sections := sections;
      expanded := InitialExpanded(sections);
      closeRequests := 0;
    }

    /** Whether the section keyed `key` is the expanded one. */
    predicate IsExpanded(key: string)
      reads this
    {
      expanded == Some(key)
    }

    /** An accordion header was clicked: expanding shows that section alone,
        collapsing leaves none expanded. */
    method OnAccordionChange(key: string, isExpanded: bool)
      modifies this
      ensures isExpanded ==> forall k :: IsExpanded(k) <==> k == key
      ensures !isExpanded ==> forall k :: !IsExpanded(k)
      ensures closeRequests == old(closeRequests)
    {
      expanded := if isExpanded then Some(key) else None;
    }

    /** The dialog is closed: the owner is told, and the expanded section goes
        back to the one the dialog opened with. */
    method Close()
      modifies this
      ensures closeRequests == old(closeRequests) + 1
      ensures expanded == InitialExpanded(sections)
    {
      closeRequests := closeRequests + 1;
      expanded := InitialExpanded(sections);
    }
  }
}
