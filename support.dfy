/** The help page's FAQ search: the query is trimmed and lower-cased, and an
    entry is shown when that term occurs in its lower-cased title and text. */
module Support {
  import opened Seqs
  import opened Text

  datatype FaqItem = FaqItem(title: string, content: string)

  /** The text searched for an entry: title and content joined by a space,
      lower-cased. */
  function Haystack(item: FaqItem): string
  {
    ToLower(item.title + " " + item.content)
  }

  predicate Matches(item: FaqItem, term: string)
  {
    Includes(Haystack(item), term)
  }

  /** The entries the page lists for a query: all of them, in order, for a
      blank query; otherwise exactly those containing the term, in order. */
  function FilteredItems(items: seq<FaqItem>, query: string): (r: seq<FaqItem>)
    ensures IsBlank(query) ==> r == items
    ensures IsSubsequence(r, items)
    ensures forall i :: 0 <= i < |r| ==> Matches(r[i], SearchTerm(query))
    ensures forall i :: 0 <= i < |items| && Matches(items[i], SearchTerm(query)) ==> items[i] in r
    ensures forall item :: multiset(r)[item] == if Matches(item, SearchTerm(query)) then multiset(items)[item] else 0
  {
    var term := SearchTerm(query);
    if term == [] then
      SubsequenceRefl(items);
      EveryItemMatchesEmpty(items);
      items
    else
      FilterCounts(items, (item: FaqItem) => Matches(item, term));
      FilterIsSubsequence(items, (item: FaqItem) => Matches(item, term));
      FilterMembers(items, (item: FaqItem) => Matches(item, term));
      Filter(items, (item: FaqItem) => Matches(item, term))
  }

  lemma EveryItemMatchesEmpty(items: seq<FaqItem>)
    ensures forall i :: 0 <= i < |items| ==> Matches(items[i], [])
    ensures forall item :: Matches(item, [])
  {
    forall item
      ensures Matches(item, [])
    {
      IncludesEmpty(Haystack(item));
    }
  }

  /** Typing more text never shows more entries than before: an entry that
      contains the longer term also contains its first part. */
  lemma {:induction false} LongerTermNarrows(items: seq<FaqItem>, term: string, more: string)
    requires term != [] && term + more != []
    ensures forall i :: 0 <= i < |items| && Matches(items[i], term + more) ==> Matches(items[i], term)
  {
    forall i | 0 <= i < |items| && Matches(items[i], term + more)
      ensures Matches(items[i], term)
    {
      var h := Haystack(items[i]);
      IncludesIffOccurs(h, term + more);
      var k :| OccursAt(h, term + more, k);
      assert h[k..k + |term|] == (term + more)[..|term|];
      assert OccursAt(h, term, k);
      IncludesIffOccurs(h, term);
    }
  }
}
