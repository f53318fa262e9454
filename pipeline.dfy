/** The sales pipeline board: columns of deal cards reordered by drag and drop,
    and the dialogs that edit, remove and add deals and columns. */
module Pipeline {
  import opened Maybe
  import opened Seqs
  import opened Text
  import opened Numbers

  datatype Deal = Deal(id: string, name: string, value: string, owner: string,
                       link: Option<string>, comments: Option<string>)

  datatype Column = Column(id: string, title: string, deals: seq<Deal>, description: Option<string>)

  /** The text fields of the deal dialog. */
  datatype DealForm = DealForm(name: string, value: string, owner: string, link: string, comments: string)

  /** The text fields of the column dialog. */
  datatype ColumnForm = ColumnForm(title: string, description: string)

  const ColumnPrefix := "column:"
  const CardPrefix := "card:"

  /** The drag-and-drop id of a column. */
  function ColumnDragId(id: string): string
  {
    ColumnPrefix + id
  }

  /** The drag-and-drop id of a deal card. */
  function CardDragId(id: string): string
  {
    CardPrefix + id
  }

  predicate IsColumnId(dragId: string)
  {
    StartsWith(dragId, ColumnPrefix)
  }

  predicate IsCardId(dragId: string)
  {
    StartsWith(dragId, CardPrefix)
  }

  /** `dragId.split(":")[1]`: the text between the first ':' and the next one
      (or the end), when there is a ':' at all. */
  function SecondField(dragId: string): (r: Option<string>)
    ensures r.Some? ==> ':' !in r.value
  {
    match IndexOfChar(dragId, ':')
    case None => None
    case Some(i) =>
      var rest := dragId[i + 1..];
      match IndexOfChar(rest, ':')
      case None => Some(rest)
      case Some(j) => Some(rest[..j])
  }

  /** `dragId.split(":")[1] || dragId`: the id behind a drag id, or the drag id
      itself when that field is missing or empty. */
  function StripPrefix(dragId: string): string
  {
    match SecondField(dragId)
    case Some(f) => if f != [] then f else dragId
    case None => dragId
  }

  /** An id that is suitable for a drag id: non-empty and free of ':'. */
  predicate PlainId(id: string)
  {
    id != [] && ':' !in id
  }

  lemma StripAfterPrefix(prefix: string, id: string)
    requires |prefix| > 0 && ':' !in prefix[..|prefix| - 1] && prefix[|prefix| - 1] == ':'
    requires PlainId(id)
    ensures StripPrefix(prefix + id) == id
  {
    var s := prefix + id;
    var k := |prefix| - 1;
    assert s[..k] == prefix[..k];
    assert IndexOfChar(s, ':') == Some(k);
    assert s[k + 1..] == id;
  }

  /** Both kinds of drag id lead back to the id they were made from, and the
      two kinds are told apart by their prefix. */
  lemma DragIdsRoundTrip(id: string)
    requires PlainId(id)
    ensures StripPrefix(ColumnDragId(id)) == id && StripPrefix(CardDragId(id)) == id
    ensures IsColumnId(ColumnDragId(id)) && !IsCardId(ColumnDragId(id))
    ensures IsCardId(CardDragId(id)) && !IsColumnId(CardDragId(id))
  {
    StripAfterPrefix(ColumnPrefix, id);
    StripAfterPrefix(CardPrefix, id);
    assert ColumnDragId(id)[1] != CardPrefix[1];
    assert |ColumnPrefix| <= |CardDragId(id)| ==> CardDragId(id)[1] != ColumnPrefix[1];
  }

  predicate HasDeal(deals: seq<Deal>, id: string)
  {
    exists k :: 0 <= k < |deals| && deals[k].id == id
  }

  /** `columns.findIndex(column => column.id === id)`. */
  function ColumnIndex(columns: seq<Column>, id: string): (r: Option<nat>)
    ensures r.Some? ==> r.value < |columns| && columns[r.value].id == id
    ensures r.None? ==> forall k :: 0 <= k < |columns| ==> columns[k].id != id
  {
    FindIndex(columns, (c: Column) => c.id == id)
  }

  /** The first column holding a card with this id (`findColumnByCard`). */
  function ColumnOfCard(columns: seq<Column>, cardId: string): (r: Option<nat>)
    ensures r.Some? ==> r.value < |columns| && HasDeal(columns[r.value].deals, cardId)
    ensures r.Some? ==> forall k :: 0 <= k < r.value ==> !HasDeal(columns[k].deals, cardId)
    ensures r.None? ==> forall k :: 0 <= k < |columns| ==> !HasDeal(columns[k].deals, cardId)
  {
    FindIndex(columns, (c: Column) => HasDeal(c.deals, cardId))
  }

  /** The position of the first card with this id in a column that holds one. */
  function DealIndex(deals: seq<Deal>, id: string): (r: nat)
    requires HasDeal(deals, id)
    ensures r < |deals| && deals[r].id == id
    ensures forall j :: 0 <= j < r ==> deals[j].id != id
  {
    var found := FindIndex(deals, (d: Deal) => d.id == id);
    assert found.Some?;
    found.value
  }

  predicate DistinctColumnIds(columns: seq<Column>)
  {
    forall i, j :: 0 <= i < j < |columns| ==> columns[i].id != columns[j].id
  }

  predicate DistinctDealIds(deals: seq<Deal>)
  {
    forall i, j :: 0 <= i < j < |deals| ==> deals[i].id != deals[j].id
  }

  /** The board the pages keep: no two columns share an id and no column holds
      two cards with one id. */
  predicate WellFormed(columns: seq<Column>)
  {
    DistinctColumnIds(columns) && forall k :: 0 <= k < |columns| ==> DistinctDealIds(columns[k].deals)
  }

  lemma IndexOfDistinct(columns: seq<Column>, k: nat)
    requires DistinctColumnIds(columns) && k < |columns|
    ensures ColumnIndex(columns, columns[k].id) == Some(k)
  {
    FirstIndexIs(columns, (c: Column) => c.id == columns[k].id, k);
  }

  /** Every card on the board, column by column. */
  function AllDeals(columns: seq<Column>): (r: seq<Deal>)
  {
    if columns == [] then [] else columns[0].deals + AllDeals(columns[1..])
  }

  /** Replacing one column changes the board's cards by exactly the cards of
      that column. */
  lemma {:induction false} AllDealsUpdate(columns: seq<Column>, i: nat, c: Column)
    requires i < |columns|
    ensures multiset(AllDeals(columns[i := c])) + multiset(columns[i].deals)
         == multiset(AllDeals(columns)) + multiset(c.deals)
  {
    var u := columns[i := c];
    if i == 0 {
      assert u[1..] == columns[1..];
    } else {
      var rest := columns[1..];
      assert u[1..] == rest[i - 1 := c];
      AllDealsUpdate(rest, i - 1, c);
      assert rest[i - 1] == columns[i];
      calc {
        multiset(AllDeals(u)) + multiset(columns[i].deals);
        multiset(columns[0].deals) + (multiset(AllDeals(rest[i - 1 := c])) + multiset(rest[i - 1].deals));
        multiset(columns[0].deals) + (multiset(AllDeals(rest)) + multiset(c.deals));
        multiset(AllDeals(columns)) + multiset(c.deals);
      }
    }
  }

  /** Replacing two columns, one after the other. */
  lemma AllDealsUpdateTwice(columns: seq<Column>, i: nat, ci: Column, j: nat, cj: Column)
    requires i < |columns| && j < |columns|
    ensures var u := columns[i := ci];
      multiset(AllDeals(u[j := cj])) + multiset(columns[i].deals) + multiset(u[j].deals)
      == multiset(AllDeals(columns)) + multiset(ci.deals) + multiset(cj.deals)
  {
    var u := columns[i := ci];
    AllDealsUpdate(columns, i, ci);
    AllDealsUpdate(u, j, cj);
    var w, x, y := multiset(AllDeals(u[j := cj])), multiset(columns[i].deals), multiset(u[j].deals);
    var a, bi, bj := multiset(AllDeals(columns)), multiset(ci.deals), multiset(cj.deals);
    forall e
      ensures (w + x + y)[e] == (a + bi + bj)[e]
    {
      assert (w + y)[e] == (multiset(AllDeals(u)) + bj)[e];
      assert (multiset(AllDeals(u)) + x)[e] == (a + bi)[e];
    }
    assert w + x + y == a + bi + bj;
  }

  lemma BagCancel<T>(a: multiset<T>, b: multiset<T>, x: multiset<T>)
    requires a + x == b + x
    ensures a == b
  {
    assert forall e :: a[e] == (a + x)[e] - x[e] && b[e] == (b + x)[e] - x[e];
  }

  // ---------------------------------------------------------------------------
  // Dragging a column

  /** The drop target of a column drag: a card stands for the column that
      holds it. */
  function ResolveOver(columns: seq<Column>, overId: string): string
  {
    if IsCardId(overId) then
      match ColumnOfCard(columns, StripPrefix(overId))
      case Some(t) => ColumnDragId(columns[t].id)
      case None => overId
    else overId
  }

  /** Drag-over with a column: when the target resolves to another column
      that exists, the dragged column is moved to its position; in every other
      case the board is left as it is. */
  function ColumnDragOver(columns: seq<Column>, activeId: string, overId: string): (r: seq<Column>)
    ensures |r| == |columns| && multiset(r) == multiset(columns)
    ensures var target := ResolveOver(columns, overId);
      !IsColumnId(target) || activeId == target ==> r == columns
    ensures var a, o := ColumnIndex(columns, StripPrefix(activeId)), ColumnIndex(columns, StripPrefix(ResolveOver(columns, overId)));
      a.None? || o.None? || a == o ==> r == columns
    ensures var target := ResolveOver(columns, overId);
      var a, o := ColumnIndex(columns, StripPrefix(activeId)), ColumnIndex(columns, StripPrefix(target));
      IsColumnId(target) && activeId != target && a.Some? && o.Some? && a != o ==>
        r == ArrayMove(columns, a.value, o.value) && r[o.value] == columns[a.value]
  {
    var target := ResolveOver(columns, overId);
    if !IsColumnId(target) || activeId == target then columns
    else
      match (ColumnIndex(columns, StripPrefix(activeId)), ColumnIndex(columns, StripPrefix(target)))
      case (Some(a), Some(o)) => if a != o then ArrayMove(columns, a, o) else columns
      case _ => columns
  }

  /** Dropping column `a` on column `o` moves it there: `a` lands at `o` and
      the board is a permutation of what it was. */
  lemma ColumnDropOnColumn(columns: seq<Column>, a: nat, o: nat)
    requires DistinctColumnIds(columns) && a < |columns| && o < |columns| && a != o
    requires PlainId(columns[a].id) && PlainId(columns[o].id)
    ensures ColumnDragOver(columns, ColumnDragId(columns[a].id), ColumnDragId(columns[o].id))
         == ArrayMove(columns, a, o)
    ensures ArrayMove(columns, a, o)[o] == columns[a]
  {
    DragIdsRoundTrip(columns[a].id);
    DragIdsRoundTrip(columns[o].id);
    IndexOfDistinct(columns, a);
    IndexOfDistinct(columns, o);
  }

  /** Dropping a column on a card is dropping it on the card's column. */
  lemma ColumnDropOnCard(columns: seq<Column>, activeId: string, cardId: string, t: nat)
    requires PlainId(cardId) && ColumnOfCard(columns, cardId) == Some(t)
    ensures ColumnDragOver(columns, activeId, CardDragId(cardId))
         == ColumnDragOver(columns, activeId, ColumnDragId(columns[t].id))
  {
    DragIdsRoundTrip(cardId);
    assert ColumnDragId(columns[t].id)[..|ColumnPrefix|] == ColumnPrefix;
    assert !IsCardId(ColumnDragId(columns[t].id)) by {
      assert ColumnDragId(columns[t].id)[1] == 'o';
    }
  }

  // ---------------------------------------------------------------------------
  // Dragging a card

  /** What a card drag does: nothing; a move within one column from one
      position to another; or a move of the card at `from` in column `source`
      into column `target` at position `at`. */
  datatype CardPlan =
    | Stay
    | Within(column: nat, from: nat, to: nat)
    | Across(source: nat, from: nat, target: nat, at: nat)

  predicate Fits(columns: seq<Column>, p: CardPlan)
  {
    match p
    case Stay => true
    case Within(k, from, to) => k < |columns| && from < |columns[k].deals| && from != to
    case Across(s, from, t, at) =>
      s < |columns| && t < |columns| && from < |columns[s].deals| && at <= |columns[t].deals|
      && columns[s].id != columns[t].id
  }

  /** The column a card drag ends in, and the position it takes there: the
      over-card's position, or the end of the over-column. */
  function Destination(columns: seq<Column>, overId: string): (r: Option<(nat, nat)>)
    ensures r.Some? ==> r.value.0 < |columns| && r.value.1 <= |columns[r.value.0].deals|
  {
    if IsCardId(overId) then
      var overCard := StripPrefix(overId);
      match ColumnOfCard(columns, overCard)
      case None => None
      case Some(t) => Some((t, DealIndex(columns[t].deals, overCard)))
    else if IsColumnId(overId) then
      match ColumnIndex(columns, StripPrefix(overId))
      case None => None
      case Some(t) => Some((t, |columns[t].deals|))
    else None
  }

  function PlanCardMove(columns: seq<Column>, activeId: string, overId: string): (p: CardPlan)
    ensures Fits(columns, p)
  {
    var cardId := StripPrefix(activeId);
    match ColumnOfCard(columns, cardId)
    case None => Stay
    case Some(s) =>
      match Destination(columns, overId)
      case None => Stay
      case Some((t, at)) =>
        var from := DealIndex(columns[s].deals, cardId);
        if columns[s].id == columns[t].id then
          if from == at then Stay else Within(s, from, at)
        else Across(s, from, t, at)
  }

  /** The cards of a column without those carrying `id`. */
  function WithoutDeal(deals: seq<Deal>, id: string): (r: seq<Deal>)
    ensures forall j :: 0 <= j < |r| ==> r[j].id != id
  {
    Filter(deals, (d: Deal) => d.id != id)
  }

  /** A column after a move inside the column with id `columnId`. */
  function MoveInColumn(c: Column, columnId: string, from: nat, to: nat): Column
  {
    if c.id == columnId && from < |c.deals| then c.(deals := ArrayMove(c.deals, from, to)) else c
  }

  /** A column after `moving` left the column `sourceId` for `targetId`. */
  function MoveAcross(c: Column, sourceId: string, targetId: string, moving: Deal, at: nat): Column
  {
    if c.id == sourceId then c.(deals := WithoutDeal(c.deals, moving.id))
    else if c.id == targetId then c.(deals := InsertAt(c.deals, at, moving))
    else c
  }

  function ApplyCardPlan(columns: seq<Column>, p: CardPlan): (r: seq<Column>)
    requires Fits(columns, p)
    ensures |r| == |columns|
    ensures forall k :: 0 <= k < |r| ==> r[k].id == columns[k].id && r[k].title == columns[k].title
  {
    match p
    case Stay => columns
    case Within(k, from, to) =>
      var id := columns[k].id;
      Map(columns, (c: Column) => MoveInColumn(c, id, from, to))
    case Across(s, from, t, at) =>
      var sourceId, targetId, moving := columns[s].id, columns[t].id, columns[s].deals[from];
      Map(columns, (c: Column) => MoveAcross(c, sourceId, targetId, moving, at))
  }

  /** The card part of `handleDragOver` and `handleDragEnd`. */
  function CardMove(columns: seq<Column>, activeId: string, overId: string): (r: seq<Column>)
    ensures |r| == |columns|
    ensures forall k :: 0 <= k < |r| ==> r[k].id == columns[k].id && r[k].title == columns[k].title
  {
    ApplyCardPlan(columns, PlanCardMove(columns, activeId, overId))
  }

  /** Removing the cards with the id of the only card carrying it removes
      that card alone. */
  lemma {:induction false} WithoutOnly(deals: seq<Deal>, id: string, k: nat)
    requires k < |deals| && deals[k].id == id
    requires forall j :: 0 <= j < |deals| && j != k ==> deals[j].id != id
    ensures WithoutDeal(deals, id) == deals[..k] + deals[k + 1..]
  {
    var rest := deals[1..];
    assert WithoutDeal(deals, id) == (if deals[0].id != id then [deals[0]] else []) + WithoutDeal(rest, id);
    if k == 0 {
      assert forall j :: 0 <= j < |rest| ==> rest[j] == deals[j + 1];
      FilterKeepsAll(rest, (d: Deal) => d.id != id);
    } else {
      assert forall j :: 0 <= j < |rest| && j != k - 1 ==> rest[j] == deals[j + 1];
      WithoutOnly(rest, id, k - 1);
      assert deals[..k] == [deals[0]] + rest[..k - 1];
      assert deals[k + 1..] == rest[k..];
    }
  }

  lemma WithoutUnique(deals: seq<Deal>, id: string, k: nat)
    requires DistinctDealIds(deals) && k < |deals| && deals[k].id == id
    ensures multiset(WithoutDeal(deals, id)) + multiset{deals[k]} == multiset(deals)
  {
    forall j | 0 <= j < |deals| && j != k
      ensures deals[j].id != id
    {
      if j < k { assert deals[j].id != deals[k].id; } else { assert deals[k].id != deals[j].id; }
    }
    WithoutOnly(deals, id, k);
    assert deals == deals[..k] + [deals[k]] + deals[k + 1..];
  }

  lemma InsertAtBag(deals: seq<Deal>, at: nat, d: Deal)
    requires at <= |deals|
    ensures multiset(InsertAt(deals, at, d)) == multiset(deals) + multiset{d}
  {
    assert deals == deals[..at] + deals[at..];
  }

  /** A card move on a well-formed board only rearranges its cards: every
      card is still there exactly once, and nothing else is added. */
  lemma CardMovePermutes(columns: seq<Column>, activeId: string, overId: string)
    requires WellFormed(columns)
    ensures multiset(AllDeals(CardMove(columns, activeId, overId))) == multiset(AllDeals(columns))
  {
    var p := PlanCardMove(columns, activeId, overId);
    match p
    case Stay =>
    case Within(k, from, to) => WithinPermutes(columns, k, from, to);
    case Across(s, from, t, at) => AcrossPermutes(columns, s, from, t, at);
  }

  lemma WithinPermutes(columns: seq<Column>, k: nat, from: nat, to: nat)
    requires DistinctColumnIds(columns) && Fits(columns, Within(k, from, to))
    ensures multiset(AllDeals(ApplyCardPlan(columns, Within(k, from, to)))) == multiset(AllDeals(columns))
  {
    var r := ApplyCardPlan(columns, Within(k, from, to));
    var c := columns[k].(deals := ArrayMove(columns[k].deals, from, to));
    WithinUpdate(columns, k, from, to);
    AllDealsUpdate(columns, k, c);
    BagCancel(multiset(AllDeals(r)), multiset(AllDeals(columns)), multiset(columns[k].deals));
  }

  /** The board after a move across columns, as two column updates. */
  lemma AcrossUpdates(columns: seq<Column>, s: nat, from: nat, t: nat, at: nat)
    requires DistinctColumnIds(columns) && Fits(columns, Across(s, from, t, at))
    ensures var moving := columns[s].deals[from];
      ApplyCardPlan(columns, Across(s, from, t, at))
      == columns[s := columns[s].(deals := WithoutDeal(columns[s].deals, moving.id))]
                [t := columns[t].(deals := InsertAt(columns[t].deals, at, moving))]
  {
    var r := ApplyCardPlan(columns, Across(s, from, t, at));
    forall j | 0 <= j < |columns| && j != s && j != t
      ensures r[j] == columns[j]
    {
      assert columns[j].id != columns[s].id && columns[j].id != columns[t].id;
    }
  }

  lemma AcrossPermutes(columns: seq<Column>, s: nat, from: nat, t: nat, at: nat)
    requires WellFormed(columns) && Fits(columns, Across(s, from, t, at))
    ensures multiset(AllDeals(ApplyCardPlan(columns, Across(s, from, t, at)))) == multiset(AllDeals(columns))
  {
    var moving := columns[s].deals[from];
    var cs := columns[s].(deals := WithoutDeal(columns[s].deals, moving.id));
    var ct := columns[t].(deals := InsertAt(columns[t].deals, at, moving));
    var mid := columns[s := cs];
    AcrossUpdates(columns, s, from, t, at);
    WithoutUnique(columns[s].deals, moving.id, from);
    InsertAtBag(columns[t].deals, at, moving);
    AllDealsUpdate(columns, s, cs);
    AllDealsUpdate(mid, t, ct);
    assert mid[t] == columns[t];
    var x := multiset(columns[s].deals) + multiset(columns[t].deals);
    calc {
      multiset(AllDeals(mid[t := ct])) + x;
      multiset(AllDeals(mid)) + multiset(ct.deals) + multiset(columns[s].deals);
      multiset(AllDeals(columns)) + multiset(cs.deals) + multiset(ct.deals);
      multiset(AllDeals(columns)) + x;
    }
    BagCancel(multiset(AllDeals(mid[t := ct])), multiset(AllDeals(columns)), x);
  }

  /** A card moved across columns leaves every column other than its source
      and its target as it was, and lands in the target at the planned
      position. */
  lemma CardMoveAcross(columns: seq<Column>, activeId: string, overId: string)
    requires DistinctColumnIds(columns)
    requires PlanCardMove(columns, activeId, overId).Across?
    ensures var p := PlanCardMove(columns, activeId, overId);
      var r := CardMove(columns, activeId, overId);
      && r[p.source].deals == WithoutDeal(columns[p.source].deals, StripPrefix(activeId))
      && r[p.target].deals == InsertAt(columns[p.target].deals, p.at, columns[p.source].deals[p.from])
      && r[p.target].deals[p.at] == columns[p.source].deals[p.from]
      && forall j :: 0 <= j < |columns| && j != p.source && j != p.target ==> r[j] == columns[j]
  {
    var p := PlanCardMove(columns, activeId, overId);
    var r := CardMove(columns, activeId, overId);
    forall j | 0 <= j < |columns| && j != p.source && j != p.target
      ensures r[j] == columns[j]
    {
      assert columns[j].id != columns[p.source].id && columns[j].id != columns[p.target].id;
    }
  }

  /** The board after a move inside column `k`, as one column update. */
  lemma WithinUpdate(columns: seq<Column>, k: nat, from: nat, to: nat)
    requires DistinctColumnIds(columns) && Fits(columns, Within(k, from, to))
    ensures ApplyCardPlan(columns, Within(k, from, to))
         == columns[k := columns[k].(deals := ArrayMove(columns[k].deals, from, to))]
  {
    var r := ApplyCardPlan(columns, Within(k, from, to));
    forall j | 0 <= j < |columns| && j != k
      ensures r[j] == columns[j]
    {
      assert columns[j].id != columns[k].id;
    }
  }

  /** Dropping a card on its own column plans a move to the end of it. */
  lemma PlanDropOnOwnColumn(columns: seq<Column>, cardId: string, k: nat)
    requires DistinctColumnIds(columns) && PlainId(cardId) && ColumnOfCard(columns, cardId) == Some(k)
    requires PlainId(columns[k].id)
    ensures PlanCardMove(columns, CardDragId(cardId), ColumnDragId(columns[k].id))
         == Within(k, DealIndex(columns[k].deals, cardId), |columns[k].deals|)
  {
    DragIdsRoundTrip(cardId);
    DragIdsRoundTrip(columns[k].id);
    IndexOfDistinct(columns, k);
  }

  /** A card dropped on its own column goes to the end of that column, and the
      other columns do not change. */
  lemma CardDropOnOwnColumn(columns: seq<Column>, cardId: string, k: nat)
    requires DistinctColumnIds(columns) && PlainId(cardId) && ColumnOfCard(columns, cardId) == Some(k)
    requires PlainId(columns[k].id)
    ensures var r := CardMove(columns, CardDragId(cardId), ColumnDragId(columns[k].id));
      && r[k].deals == ArrayMove(columns[k].deals, DealIndex(columns[k].deals, cardId), |columns[k].deals|)
      && r[k].deals[|r[k].deals| - 1].id == cardId
      && forall j :: 0 <= j < |columns| && j != k ==> r[j] == columns[j]
  {
    var from := DealIndex(columns[k].deals, cardId);
    PlanDropOnOwnColumn(columns, cardId, k);
    WithinUpdate(columns, k, from, |columns[k].deals|);
  }

  // ---------------------------------------------------------------------------
  // The drag handlers

  /** `handleDragOver`: nothing without a target or on the dragged item
      itself; a column drag reorders the columns; a card drag moves the card. */
  function DragOver(columns: seq<Column>, activeId: string, over: Option<string>): (r: seq<Column>)
    ensures |r| == |columns|
    ensures over.None? || over == Some([]) || over == Some(activeId) ==> r == columns
  {
    if over.None? || over.value == [] || activeId == over.value then columns
    else if IsColumnId(activeId) then ColumnDragOver(columns, activeId, over.value)
    else if IsCardId(activeId) then CardMove(columns, activeId, over.value)
    else columns
  }

  /** `handleDragEnd`: a column drag changes nothing (columns only move while
      dragging over), a card drag moves the card as drag-over does. */
  function DragEnd(columns: seq<Column>, activeId: string, over: Option<string>): (r: seq<Column>)
    ensures IsColumnId(activeId) ==> r == columns
    ensures !IsColumnId(activeId) ==> r == DragOver(columns, activeId, over)
  {
    if over.None? || over.value == [] || activeId == over.value then columns
    else if IsColumnId(activeId) then columns
    else if IsCardId(activeId) then CardMove(columns, activeId, over.value)
    else columns
  }

  // ---------------------------------------------------------------------------
  // Editing, removing and adding

  /** `input.trim() || fallback`. */
  function TrimOr(input: string, fallback: string): (r: string)
    ensures IsBlank(input) ==> r == fallback
    ensures !IsBlank(input) ==> r == Trim(input)
  {
    var t := Trim(input);
    if t == [] then fallback else t
  }

  /** The dialog's fields for a deal (`handleEditOpen`). */
  function FormOf(d: Deal): DealForm
  {
    DealForm(d.name, d.value, d.owner, d.link.GetOr([]), d.comments.GetOr([]))
  }

  /** A deal after saving the dialog: blank name, value or owner keep the old
      one, link and comments take the trimmed input. */
  function SaveDeal(d: Deal, form: DealForm): (r: Deal)
    ensures r.id == d.id
  {
    d.(name := TrimOr(form.name, d.name), value := TrimOr(form.value, d.value),
       owner := TrimOr(form.owner, d.owner),
       link := Some(Trim(form.link)), comments := Some(Trim(form.comments)))
  }

  predicate Trimmed(s: string)
  {
    Trim(s) == s
  }

  /** A deal as the dialog leaves it: every text field trimmed, link and
      comments present. */
  predicate Normalized(d: Deal)
  {
    Trimmed(d.name) && Trimmed(d.value) && Trimmed(d.owner)
    && d.link.Some? && Trimmed(d.link.value) && d.comments.Some? && Trimmed(d.comments.value)
  }

  /** Opening the dialog and saving it untouched leaves a normalized deal as
      it was. */
  lemma OpenSaveUnchanged(d: Deal)
    requires Normalized(d)
    ensures SaveDeal(d, FormOf(d)) == d
  {
  }

  /** Saving keeps a normalized deal normalized, and saving the same form
      twice is saving it once. */
  lemma SaveDealStable(d: Deal, form: DealForm)
    ensures Normalized(d) ==> Normalized(SaveDeal(d, form))
    ensures SaveDeal(SaveDeal(d, form), form) == SaveDeal(d, form)
  {
    TrimIdempotent(form.name);
    TrimIdempotent(form.value);
    TrimIdempotent(form.owner);
    TrimIdempotent(form.link);
    TrimIdempotent(form.comments);
  }

  function EditInColumn(c: Column, id: string, form: DealForm): Column
  {
    c.(deals := Map(c.deals, (d: Deal) => if d.id == id then SaveDeal(d, form) else d))
  }

  /** `handleEditSave`: every card with the edited id is saved from the form;
      everything else stays. */
  function EditSave(columns: seq<Column>, id: string, form: DealForm): (r: seq<Column>)
    ensures |r| == |columns|
  {
    Map(columns, (c: Column) => EditInColumn(c, id, form))
  }

  /** Saving changes only the cards with the edited id, and keeps every
      column's id, title and card ids. */
  lemma EditSaveEffect(columns: seq<Column>, id: string, form: DealForm)
    ensures var r := EditSave(columns, id, form);
      forall k :: 0 <= k < |columns| ==>
        && r[k].id == columns[k].id && r[k].title == columns[k].title
        && |r[k].deals| == |columns[k].deals|
        && forall j :: 0 <= j < |columns[k].deals| ==>
             r[k].deals[j].id == columns[k].deals[j].id
             && (columns[k].deals[j].id != id ==> r[k].deals[j] == columns[k].deals[j])
             && (columns[k].deals[j].id == id ==> r[k].deals[j] == SaveDeal(columns[k].deals[j], form))
  {
  }

  /** Saving the same form twice is saving it once. */
  lemma EditSaveTwice(columns: seq<Column>, id: string, form: DealForm)
    ensures EditSave(EditSave(columns, id, form), id, form) == EditSave(columns, id, form)
  {
    var once := EditSave(columns, id, form);
    forall k | 0 <= k < |columns|
      ensures EditInColumn(once[k], id, form) == once[k]
    {
      forall j | 0 <= j < |once[k].deals| && once[k].deals[j].id == id
        ensures SaveDeal(once[k].deals[j], form) == once[k].deals[j]
      {
        SaveDealStable(columns[k].deals[j], form);
      }
      assert EditInColumn(once[k], id, form).deals == once[k].deals;
    }
  }

  /** `handleDealRemove`: every card with the id is taken off every column. */
  function DealRemove(columns: seq<Column>, id: string): (r: seq<Column>)
    ensures |r| == |columns|
  {
    Map(columns, (c: Column) => c.(deals := WithoutDeal(c.deals, id)))
  }

  /** After removal no column holds the card, every other card stays in its
      column in order, and the columns keep their ids and titles. */
  lemma DealRemoveEffect(columns: seq<Column>, id: string)
    ensures var r := DealRemove(columns, id);
      forall k :: 0 <= k < |columns| ==>
        && r[k].id == columns[k].id && r[k].title == columns[k].title
        && !HasDeal(r[k].deals, id)
        && IsSubsequence(r[k].deals, columns[k].deals)
        && forall j :: 0 <= j < |columns[k].deals| && columns[k].deals[j].id != id ==>
             columns[k].deals[j] in r[k].deals
  {
    forall k | 0 <= k < |columns|
      ensures IsSubsequence(WithoutDeal(columns[k].deals, id), columns[k].deals)
      ensures forall j :: 0 <= j < |columns[k].deals| && columns[k].deals[j].id != id ==>
             columns[k].deals[j] in WithoutDeal(columns[k].deals, id)
    {
      FilterIsSubsequence(columns[k].deals, (d: Deal) => d.id != id);
      FilterMembers(columns[k].deals, (d: Deal) => d.id != id);
    }
  }

  /** The column dialog's fields for a column (`handleColumnEditOpen`). */
  function ColumnFormOf(c: Column): ColumnForm
  {
    ColumnForm(c.title, c.description.GetOr([]))
  }

  /** `handleColumnEditSave`: the columns with the edited id take the trimmed
      title (the title the dialog opened with when blank) and the trimmed
      description; their cards and every other column stay. */
  function ColumnEditSave(columns: seq<Column>, editing: Column, form: ColumnForm): (r: seq<Column>)
    ensures |r| == |columns|
    ensures forall k :: 0 <= k < |columns| ==> r[k].id == columns[k].id && r[k].deals == columns[k].deals
    ensures forall k :: 0 <= k < |columns| && columns[k].id != editing.id ==> r[k] == columns[k]
    ensures forall k :: 0 <= k < |columns| && columns[k].id == editing.id ==>
      r[k].title == (if IsBlank(form.title) then editing.title else Trim(form.title))
      && r[k].description == Some(Trim(form.description))
  {
    var title, description := TrimOr(form.title, editing.title), Trim(form.description);
    Map(columns, (c: Column) =>
      if c.id == editing.id then c.(title := title, description := Some(description)) else c)
  }

  /** `handleColumnRemove`: the columns with the edited id go, the others stay
      in order. */
  function ColumnRemove(columns: seq<Column>, id: string): (r: seq<Column>)
    ensures IsSubsequence(r, columns)
    ensures forall k :: 0 <= k < |r| ==> r[k].id != id
    ensures forall k :: 0 <= k < |columns| && columns[k].id != id ==> columns[k] in r
  {
    FilterIsSubsequence(columns, (c: Column) => c.id != id);
    FilterMembers(columns, (c: Column) => c.id != id);
    Filter(columns, (c: Column) => c.id != id)
  }

  /** The id of an added column, from a generated suffix. */
  function StageId(suffix: string): string
  {
    "stage-" + suffix
  }

  /** The id of an added deal, from a generated suffix. */
  function NewDealId(suffix: string): string
  {
    "deal-" + suffix
  }

  /** `handleAddColumn`: an empty column titled "Etapa n", n being the new
      number of columns, is appended. */
  function AddColumn(columns: seq<Column>, suffix: string): (r: seq<Column>)
    ensures |r| == |columns| + 1 && r[..|columns|] == columns
    ensures r[|columns|].id == StageId(suffix) && r[|columns|].deals == []
    ensures r[|columns|].title == "Etapa " + NatToString(|r|)
  {
    columns + [Column(StageId(suffix), "Etapa " + NatToString(|columns| + 1), [], None)]
  }

  /** Removing a just-added column whose id was fresh gives the board back. */
  lemma AddThenRemoveColumn(columns: seq<Column>, suffix: string)
    requires forall k :: 0 <= k < |columns| ==> columns[k].id != StageId(suffix)
    ensures ColumnRemove(AddColumn(columns, suffix), StageId(suffix)) == columns
  {
    var added := AddColumn(columns, suffix);
    assert added == columns + [added[|columns|]];
    FilterAppend(columns, [added[|columns|]], (c: Column) => c.id != StageId(suffix));
    FilterKeepsAll(columns, (c: Column) => c.id != StageId(suffix));
    assert [added[|columns|]][1..] == [];
  }

  /** The card `handleAddDeal` creates. */
  function Placeholder(suffix: string): Deal
  {
    Deal(NewDealId(suffix), "Nova oportunidade", "R$ 0", "Responsavel", None, None)
  }

  /** `handleAddDeal`: the placeholder card is appended to the columns with
      that id; the others stay. */
  function AddDeal(columns: seq<Column>, columnId: string, suffix: string): (r: seq<Column>)
    ensures |r| == |columns|
    ensures forall k :: 0 <= k < |columns| && columns[k].id == columnId ==>
      r[k] == columns[k].(deals := columns[k].deals + [Placeholder(suffix)])
    ensures forall k :: 0 <= k < |columns| && columns[k].id != columnId ==> r[k] == columns[k]
  {
    Map(columns, (c: Column) =>
      if c.id == columnId then c.(deals := c.deals + [Placeholder(suffix)]) else c)
  }

  /** Removing a just-added card whose id was fresh gives the board back. */
  lemma AddThenRemoveDeal(columns: seq<Column>, columnId: string, suffix: string)
    requires forall k :: 0 <= k < |columns| ==> !HasDeal(columns[k].deals, NewDealId(suffix))
    ensures DealRemove(AddDeal(columns, columnId, suffix), NewDealId(suffix)) == columns
  {
    var id := NewDealId(suffix);
    var added := AddDeal(columns, columnId, suffix);
    forall k | 0 <= k < |columns|
      ensures WithoutDeal(added[k].deals, id) == columns[k].deals
    {
      FilterKeepsAll(columns[k].deals, (d: Deal) => d.id != id);
      if columns[k].id == columnId {
        FilterAppend(columns[k].deals, [Placeholder(suffix)], (d: Deal) => d.id != id);
        assert [Placeholder(suffix)][1..] == [];
      }
    }
  }

  /** The board the page starts with. */
  const DefaultColumns: seq<Column> := [
    Column("leads", "Leads", [
      Deal("orbit", "Orbit Media", "R$ 18k", "Ana C.", None, None),
      Deal("silo", "Silo Retail", "R$ 22k", "Lucas M.", None, None)], None),
    Column("qualified", "Qualificados", [
      Deal("argo", "Argo Health", "R$ 92k", "Lucas M.", None, None),
      Deal("nova", "Nova Terra", "R$ 36k", "Sofia L.", None, None)], None),
    Column("proposal", "Proposta", [
      Deal("prisma", "Prisma Bank", "R$ 68k", "Rafael P.", None, None),
      Deal("bluebay", "Bluebay", "R$ 41k", "Joana S.", None, None)], None),
    Column("closing", "Fechamento", [
      Deal("caravel", "Studio Caravel", "R$ 48k", "Ana C.", None, None),
      Deal("gema", "Gema Labs", "R$ 31k", "Diego M.", None, None)], None)
  ]

  // ---------------------------------------------------------------------------
  // The page

  /** The pipeline page: the board, the item being dragged and the two edit
      dialogs with their fields. */
  class Board {
    var columns: seq<Column>
    var activeDragId: Option<string>
    var editingDeal: Option<Deal>
    var dealForm: DealForm
    var editingColumn: Option<Column>
    var columnForm: ColumnForm

    /** The deal being edited and the fields of its dialog. */
    function DealDialog(): (Option<Deal>, DealForm)
      reads this
    {
      (editingDeal, dealForm)
    }

    /** The column being edited and the fields of its dialog. */
    function ColumnDialog(): (Option<Column>, ColumnForm)
      reads this
    {
      (editingColumn, columnForm)
    }

    constructor ()
      ensures columns == DefaultColumns
      ensures activeDragId.None? && editingDeal.None? && editingColumn.None?
    {
      columns := DefaultColumns;
      activeDragId := None;
      editingDeal := None;
      dealForm := DealForm([], [], [], [], []);
      editingColumn := None;
      columnForm := ColumnForm([], []);
    }

    method DragStart(activeId: string)
      modifies this
      ensures activeDragId == Some(activeId) && columns == old(columns)
      ensures DealDialog() == old(DealDialog()) && ColumnDialog() == old(ColumnDialog())
    {
      activeDragId := Some(activeId);
    }

    method DragOverEvent(activeId: string, over: Option<string>)
      modifies this
      ensures columns == DragOver(old(columns), activeId, over)
      ensures activeDragId == old(activeDragId)
      ensures DealDialog() == old(DealDialog()) && ColumnDialog() == old(ColumnDialog())
    {
      columns := DragOver(columns, activeId, over);
    }

    method DragEndEvent(activeId: string, over: Option<string>)
      modifies this
      ensures columns == DragEnd(old(columns), activeId, over)
      ensures activeDragId.None?
      ensures DealDialog() == old(DealDialog()) && ColumnDialog() == old(ColumnDialog())
    {
      activeDragId := None;
      columns := DragEnd(columns, activeId, over);
    }

    method DragCancel()
      modifies this
      ensures activeDragId.None? && columns == old(columns)
      ensures DealDialog() == old(DealDialog()) && ColumnDialog() == old(ColumnDialog())
    {
      activeDragId := None;
    }

    method EditOpen(d: Deal)
      modifies this
      ensures editingDeal == Some(d) && dealForm == FormOf(d) && columns == old(columns)
      ensures activeDragId == old(activeDragId) && ColumnDialog() == old(ColumnDialog())
    {
      editingDeal := Some(d);
      dealForm := FormOf(d);
    }

    /** The user types into the deal dialog. */
    method EditDealForm(form: DealForm)
      modifies this
      ensures dealForm == form && columns == old(columns) && editingDeal == old(editingDeal)
      ensures activeDragId == old(activeDragId) && ColumnDialog() == old(ColumnDialog())
    {
      dealForm := form;
    }

    method EditClose()
      modifies this
      ensures editingDeal.None? && columns == old(columns)
      ensures dealForm == old(dealForm) && activeDragId == old(activeDragId) && ColumnDialog() == old(ColumnDialog())
    {
      editingDeal := None;
    }

    method EditSaveClick()
      modifies this
      ensures old(editingDeal).None? ==> columns == old(columns)
      ensures old(editingDeal).Some? ==> columns == EditSave(old(columns), old(editingDeal).value.id, old(dealForm))
      ensures editingDeal.None?
      ensures dealForm == old(dealForm) && activeDragId == old(activeDragId) && ColumnDialog() == old(ColumnDialog())
    {
      if editingDeal.Some? {
        columns := EditSave(columns, editingDeal.value.id, dealForm);
        editingDeal := None;
      }
    }

    method DealRemoveClick()
      modifies this
      ensures old(editingDeal).None? ==> columns == old(columns)
      ensures old(editingDeal).Some? ==> columns == DealRemove(old(columns), old(editingDeal).value.id)
      ensures editingDeal.None?
      ensures dealForm == old(dealForm) && activeDragId == old(activeDragId) && ColumnDialog() == old(ColumnDialog())
    {
      if editingDeal.Some? {
        columns := DealRemove(columns, editingDeal.value.id);
        editingDeal := None;
      }
    }

    method ColumnEditOpen(c: Column)
      modifies this
      ensures editingColumn == Some(c) && columnForm == ColumnFormOf(c) && columns == old(columns)
      ensures activeDragId == old(activeDragId) && DealDialog() == old(DealDialog())
    {
      editingColumn := Some(c);
      columnForm := ColumnFormOf(c);
    }

    /** The user types into the column dialog. */
    method EditColumnForm(form: ColumnForm)
      modifies this
      ensures columnForm == form && columns == old(columns) && editingColumn == old(editingColumn)
      ensures activeDragId == old(activeDragId) && DealDialog() == old(DealDialog())
    {
      columnForm := form;
    }

    method ColumnEditClose()
      modifies this
      ensures editingColumn.None? && columns == old(columns)
      ensures columnForm == old(columnForm) && activeDragId == old(activeDragId) && DealDialog() == old(DealDialog())
    {
      editingColumn := None;
    }

    method ColumnEditSaveClick()
      modifies this
      ensures old(editingColumn).None? ==> columns == old(columns)
      ensures old(editingColumn).Some? ==>
        columns == ColumnEditSave(old(columns), old(editingColumn).value, old(columnForm))
      ensures editingColumn.None?
      ensures columnForm == old(columnForm) && activeDragId == old(activeDragId) && DealDialog() == old(DealDialog())
    {
      if editingColumn.Some? {
        columns := ColumnEditSave(columns, editingColumn.value, columnForm);
        editingColumn := None;
      }
    }

    method ColumnRemoveClick()
      modifies this
      ensures old(editingColumn).None? ==> columns == old(columns)
      ensures old(editingColumn).Some? ==> columns == ColumnRemove(old(columns), old(editingColumn).value.id)
      ensures editingColumn.None?
      ensures columnForm == old(columnForm) && activeDragId == old(activeDragId) && DealDialog() == old(DealDialog())
    {
      if editingColumn.Some? {
        columns := ColumnRemove(columns, editingColumn.value.id);
        editingColumn := None;
      }
    }

    /** Adds a column; `suffix` is the generated part of its id. */
    method AddColumnClick(suffix: string)
      modifies this
      ensures columns == AddColumn(old(columns), suffix)
      ensures activeDragId == old(activeDragId) && DealDialog() == old(DealDialog()) && ColumnDialog() == old(ColumnDialog())
    {
      columns := AddColumn(columns, suffix);
    }

    /** Adds a placeholder card to a column; `suffix` is the generated part of
        its id. */
    method AddDealClick(columnId: string, suffix: string)
      modifies this
      ensures columns == AddDeal(old(columns), columnId, suffix)
      ensures activeDragId == old(activeDragId) && DealDialog() == old(DealDialog()) && ColumnDialog() == old(ColumnDialog())
    {
      columns := AddDeal(columns, columnId, suffix);
    }
  }
}
