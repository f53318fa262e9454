/** The pipeline data page: deal values read from free text, per-stage and
    board-wide totals, the flat list of deals, and the dialog that edits a
    deal and moves it to another stage. */
module PipelineData {
  import opened Maybe
  import opened Seqs
  import opened Text
  import opened Numbers
  import opened Pipeline

  // ---------------------------------------------------------------------------
  // Reading a deal value

  predicate NotSpace(c: char)
  {
    !IsSpace(c)
  }

  /** A character of a numeric run, `[\d.,]`. */
  predicate IsNumberChar(c: char)
  {
    IsDigit(c) || c == '.' || c == ','
  }

  /** A scale letter, `[km]`. */
  predicate IsScale(c: char)
  {
    c == 'k' || c == 'm'
  }

  /** The value text without white space, lower-cased. */
  function Normalize(value: string): string
  {
    ToLower(Filter(value, NotSpace))
  }

  /** The longest prefix made of numeric characters. */
  function RunPrefix(s: string): (r: string)
    ensures |r| <= |s| && r == s[..|r|]
    ensures forall i :: 0 <= i < |r| ==> IsNumberChar(r[i])
    ensures |r| == |s| || !IsNumberChar(s[|r|])
  {
    if s != [] && IsNumberChar(s[0]) then
      var rest := RunPrefix(s[1..]);
      assert s[..1 + |rest|] == [s[0]] + rest;
      [s[0]] + rest
    else []
  }

  /** The first run of numeric characters, `/([\d.,]+)/`. */
  function NumberRun(s: string): (r: Option<string>)
    ensures r.None? <==> forall i :: 0 <= i < |s| ==> !IsNumberChar(s[i])
    ensures r.Some? ==> r.value != [] && forall i :: 0 <= i < |r.value| ==> IsNumberChar(r.value[i])
  {
    match FindIndex(s, IsNumberChar)
    case None => None
    case Some(i) => Some(RunPrefix(s[i..]))
  }

  /** `Number(raw) || 0`: a numeral that does not read as a number counts as 0. */
  function NumberOrZero(raw: string): real
  {
    match ParseNumber(raw)
    case Some(v) => v
    case None => 0.0
  }

  /** The number a numeric run stands for: its dots dropped, its first comma
      read as the decimal point. */
  function RunValue(run: string): real
  {
    NumberOrZero(CommaToPoint(Filter(run, (c: char) => c != '.')))
  }

  /** `base` times 1 000 or 1 000 000 when the first scale letter anywhere in
      `n` is 'k' or 'm'. */
  function Scaled(base: real, n: string): real
  {
    match FindIndex(n, IsScale)
    case None => base
    case Some(i) => if n[i] == 'm' then base * 1000000.0 else base * 1000.0
  }

  /** The value of normalized text: the first numeric run, scaled. */
  function ParseNormalized(n: string): real
  {
    match NumberRun(n)
    case None => 0.0
    case Some(run) => Scaled(RunValue(run), n)
  }

  /** `parseValue`: the number a deal's value text stands for. */
  function ParseValue(value: string): (r: real)
    ensures (forall i :: 0 <= i < |Normalize(value)| ==> !IsNumberChar(Normalize(value)[i])) ==> r == 0.0
  {
    ParseNormalized(Normalize(value))
  }

  /** A numeral made only of digits, points and commas never reads as a
      negative number. */
  lemma UnsignedRaw(raw: string)
    requires forall i :: 0 <= i < |raw| ==> IsNumberChar(raw[i])
    ensures NumberOrZero(raw) >= 0.0
  {
    if raw != [] {
      assert !IsSpace(raw[0]) && !IsSpace(raw[|raw| - 1]);
      TrimOfTrimmed(raw);
    }
  }

  /** The numeral read from a numeric run keeps to numeric characters. */
  lemma RawOfRun(run: string)
    requires forall i :: 0 <= i < |run| ==> IsNumberChar(run[i])
    ensures RunValue(run) >= 0.0
  {
    var dropped := Filter(run, (c: char) => c != '.');
    FilterMembers(run, (c: char) => c != '.');
    assert forall i :: 0 <= i < |dropped| ==> IsNumberChar(dropped[i]);
    UnsignedRaw(CommaToPoint(dropped));
  }

  /** Deal values are never negative. */
  lemma ParseValueNonNegative(value: string)
    ensures ParseValue(value) >= 0.0
  {
    var n := Normalize(value);
    match NumberRun(n)
    case None =>
    case Some(run) => RawOfRun(run);
  }

  /** `FindIndex` skips a prefix none of whose elements pass. */
  lemma {:induction false} FindIndexAfter<T>(a: seq<T>, b: seq<T>, p: T -> bool)
    requires forall i :: 0 <= i < |a| ==> !p(a[i])
    ensures FindIndex(a + b, p) == match FindIndex(b, p) case None => None case Some(i) => Some(|a| + i)
  {
    if a != [] {
      assert (a + b)[1..] == a[1..] + b;
      FindIndexAfter(a[1..], b, p);
    } else {
      assert a + b == b;
    }
  }

  lemma ToLowerAppend(a: string, b: string)
    ensures ToLower(a + b) == ToLower(a) + ToLower(b)
  {
    forall i | 0 <= i < |a| + |b|
      ensures ToLower(a + b)[i] == (ToLower(a) + ToLower(b))[i]
    {
      if i < |a| {
        assert (a + b)[i] == a[i];
      } else {
        assert (a + b)[i] == b[i - |a|];
      }
    }
  }

  /** Normalizing text piecewise is normalizing it whole. */
  lemma NormalizeAppend(a: string, b: string)
    ensures Normalize(a + b) == Normalize(a) + Normalize(b)
  {
    FilterAppend(a, b, NotSpace);
    ToLowerAppend(Filter(a, NotSpace), Filter(b, NotSpace));
  }

  lemma RunAfter(a: string, m: string)
    requires forall i :: 0 <= i < |a| ==> !IsNumberChar(a[i])
    ensures NumberRun(a + m) == NumberRun(m)
  {
    FindIndexAfter(a, m, IsNumberChar);
    match FindIndex(m, IsNumberChar)
    case None =>
    case Some(i) => assert (a + m)[|a| + i..] == m[i..];
  }

  lemma ScaledAfter(base: real, a: string, m: string)
    requires forall i :: 0 <= i < |a| ==> !IsScale(a[i])
    ensures Scaled(base, a + m) == Scaled(base, m)
  {
    FindIndexAfter(a, m, IsScale);
    match FindIndex(m, IsScale)
    case None =>
    case Some(j) => assert (a + m)[|a| + j] == m[j];
  }

  /** Normalized text without digits, points, commas or scale letters in
      front of normalized text does not change its value. */
  lemma NormalizedPrefixIgnored(a: string, m: string)
    requires forall i :: 0 <= i < |a| ==> !IsNumberChar(a[i]) && !IsScale(a[i])
    ensures ParseNormalized(a + m) == ParseNormalized(m)
  {
    RunAfter(a, m);
    match NumberRun(m)
    case None =>
    case Some(run) => ScaledAfter(RunValue(run), a, m);
  }

  /** Text that normalizes to no digits, points, commas or scale letters in
      front of a value does not change it. */
  lemma PrefixIgnored(prefix: string, value: string)
    requires forall i :: 0 <= i < |Normalize(prefix)| ==>
      !IsNumberChar(Normalize(prefix)[i]) && !IsScale(Normalize(prefix)[i])
    ensures ParseValue(prefix + value) == ParseValue(value)
  {
    NormalizeAppend(prefix, value);
    NormalizedPrefixIgnored(Normalize(prefix), Normalize(value));
  }

  /** A string that is already normalized. */
  lemma NormalizedAlready(s: string)
    requires forall i :: 0 <= i < |s| ==> IsDigit(s[i]) || s[i] == 'k' || s[i] == 'm'
    ensures Normalize(s) == s
  {
    FilterKeepsAll(s, NotSpace);
  }

  /** Digits followed by a non-numeric character form the numeric run. */
  lemma RunOfDigits(d: string, rest: string)
    requires d != [] && AllDigits(d)
    requires rest == [] || !IsNumberChar(rest[0])
    ensures NumberRun(d + rest) == Some(d)
  {
    var s := d + rest;
    FirstIndexIs(s, IsNumberChar, 0);
    assert s[0..] == s;
    var r := RunPrefix(s);
    assert s[..|d|] == d;
  }

  lemma DigitsRaw(d: string)
    requires d != [] && AllDigits(d)
    ensures CommaToPoint(Filter(d, (c: char) => c != '.')) == d
    ensures RunValue(d) == NumberOrZero(d)
  {
    FilterKeepsAll(d, (c: char) => c != '.');
    assert ',' !in d;
  }

  /** A whole number reads back as itself. */
  lemma NatReadsBack(n: nat)
    ensures ParseValue(NatToString(n)) == n as real
  {
    ParseNatToString(n);
    PlainDigits(NatToString(n));
  }

  /** Plain digits read as the number they spell. */
  lemma PlainDigits(d: string)
    requires d != [] && AllDigits(d)
    ensures ParseValue(d) == NumberOrZero(d)
  {
    DigitsRaw(d);
    NormalizedAlready(d);
    RunOfDigits(d, []);
    assert d + [] == d;
    assert FindIndex(d, IsScale).None? by {
      assert forall i :: 0 <= i < |d| ==> !IsScale(d[i]);
    }
  }

  /** Digits followed by a scale letter read as thousands or millions. */
  lemma ScaledDigits(d: string, letter: char)
    requires d != [] && AllDigits(d) && IsScale(letter)
    ensures ParseValue(d + [letter]) == NumberOrZero(d) * (if letter == 'm' then 1000000.0 else 1000.0)
  {
    var s := d + [letter];
    NormalizedAlready(s);
    RunOfDigits(d, [letter]);
    DigitsRaw(d);
    FirstIndexIs(s, IsScale, |d|);
  }

  /** A whole number with a 'k' or an 'm' after it reads as thousands or
      millions. */
  lemma ScaledNatReadsBack(n: nat)
    ensures ParseValue(NatToString(n) + "k") == n as real * 1000.0
    ensures ParseValue(NatToString(n) + "m") == n as real * 1000000.0
  {
    ParseNatToString(n);
    ScaledDigits(NatToString(n), 'k');
    ScaledDigits(NatToString(n), 'm');
  }

  lemma NormalizeCurrency()
    ensures Normalize("R$ ") == "r$"
  {
    assert Filter("R$ ", NotSpace) == "R$" by {
      assert "R$ "[1..] == "$ " && "$ "[1..] == " " && " "[1..] == [];
    }
    assert ToLower("R$") == "r$" by {
      assert "R$"[1..] == "$";
    }
  }

  /** The values the default board uses, as "R$ 18k", read as thousands. */
  lemma CurrencyThousands(n: nat)
    ensures ParseValue("R$ " + NatToString(n) + "k") == n as real * 1000.0
  {
    NormalizeCurrency();
    PrefixIgnored("R$ ", NatToString(n) + "k");
    ScaledNatReadsBack(n);
    assert "R$ " + NatToString(n) + "k" == "R$ " + (NatToString(n) + "k");
  }

  // ---------------------------------------------------------------------------
  // Totals

  /** One entry of the stage summary (its formatted value is left out). */
  datatype Stage = Stage(id: string, stage: string, count: nat, valueTotal: real)

  /** The sum of the values of some deals. */
  function SumValues(deals: seq<Deal>): real
  {
    if deals == [] then 0.0 else ParseValue(deals[0].value) + SumValues(deals[1..])
  }

  function StageOf(c: Column): Stage
  {
    Stage(c.id, c.title, |c.deals|, SumValues(c.deals))
  }

  /** The per-stage summary: one entry per column, in column order. */
  function Summary(columns: seq<Column>): (r: seq<Stage>)
    ensures |r| == |columns|
    ensures forall k :: 0 <= k < |columns| ==>
      r[k].id == columns[k].id && r[k].stage == columns[k].title && r[k].count == |columns[k].deals|
      && r[k].valueTotal == SumValues(columns[k].deals)
  {
    Map(columns, StageOf)
  }

  function TotalCount(stages: seq<Stage>): nat
  {
    if stages == [] then 0 else stages[0].count + TotalCount(stages[1..])
  }

  function TotalValue(stages: seq<Stage>): real
  {
    if stages == [] then 0.0 else stages[0].valueTotal + TotalValue(stages[1..])
  }

  /** The stage the left-to-right `reduce` picks: the first with the greatest
      total, a later one replacing it only when strictly greater. */
  function TopStage(stages: seq<Stage>): (r: Option<nat>)
    ensures r.None? <==> stages == []
    ensures r.Some? ==> r.value < |stages|
    ensures r.Some? ==> forall j :: 0 <= j < |stages| ==> stages[j].valueTotal <= stages[r.value].valueTotal
    ensures r.Some? ==> forall j :: 0 <= j < r.value ==> stages[j].valueTotal < stages[r.value].valueTotal
  {
    if stages == [] then None
    else
      var last := |stages| - 1;
      match TopStage(stages[..last])
      case None => Some(last)
      case Some(b) =>
        if stages[last].valueTotal > stages[b].valueTotal then Some(last) else Some(b)
  }

  datatype Totals = Totals(totalCount: nat, totalValue: real, avgTicket: real, topStage: Option<Stage>)

  /** `pipelineTotals`: deal count and value over all stages, the average
      ticket (0 without deals), and the top stage (none on an empty board). */
  function PipelineTotals(stages: seq<Stage>): (r: Totals)
    ensures r.totalCount == TotalCount(stages) && r.totalValue == TotalValue(stages)
    ensures r.totalCount == 0 ==> r.avgTicket == 0.0
    ensures r.totalCount > 0 ==> r.avgTicket * r.totalCount as real == r.totalValue
    ensures r.topStage.None? <==> stages == []
    ensures r.topStage.Some? ==>
      r.topStage.value in stages && forall j :: 0 <= j < |stages| ==> stages[j].valueTotal <= r.topStage.value.valueTotal
    ensures r.topStage.Some? ==> r.topStage == Some(stages[TopStage(stages).value])
  {
    var count, value := TotalCount(stages), TotalValue(stages);
    var top := match TopStage(stages) case None => None case Some(b) => Some(stages[b]);
    Totals(count, value, if count > 0 then value / count as real else 0.0, top)
  }

  /** The summary counts every card on the board once, and adds up the value
      of every card. */
  lemma {:induction false} SummaryCountsAll(columns: seq<Column>)
    ensures TotalCount(Summary(columns)) == |AllDeals(columns)|
    ensures TotalValue(Summary(columns)) == SumValues(AllDeals(columns))
  {
    if columns != [] {
      SummaryCountsAll(columns[1..]);
      assert Summary(columns)[1..] == Summary(columns[1..]);
      SumValuesAppend(columns[0].deals, AllDeals(columns[1..]));
    }
  }

  lemma {:induction false} SumValuesAppend(a: seq<Deal>, b: seq<Deal>)
    ensures SumValues(a + b) == SumValues(a) + SumValues(b)
  {
    if a == [] {
      assert a + b == b;
    } else {
      assert (a + b)[1..] == a[1..] + b;
      SumValuesAppend(a[1..], b);
    }
  }

  // ---------------------------------------------------------------------------
  // The flat deal list

  /** A row of the deal list: the deal with its stage title and column id. */
  datatype DealRow = DealRow(deal: Deal, stage: string, columnId: string)

  function RowsOf(c: Column): seq<DealRow>
  {
    Map(c.deals, (d: Deal) => DealRow(d, c.title, c.id))
  }

  /** `deals`: every card, column by column, tagged with its column. */
  function Rows(columns: seq<Column>): seq<DealRow>
  {
    if columns == [] then [] else RowsOf(columns[0]) + Rows(columns[1..])
  }

  /** The list holds the board's cards in board order, one row per card, and
      as many rows as the summary counts. */
  lemma {:induction false} RowsAreAllDeals(columns: seq<Column>)
    ensures |Rows(columns)| == |AllDeals(columns)| == TotalCount(Summary(columns))
    ensures forall i :: 0 <= i < |Rows(columns)| ==> Rows(columns)[i].deal == AllDeals(columns)[i]
  {
    SummaryCountsAll(columns);
    if columns != [] {
      RowsAreAllDeals(columns[1..]);
    }
  }

  /** The row's card, stage and column id are those of column `c`. */
  predicate InColumn(row: DealRow, c: Column)
  {
    row.columnId == c.id && row.stage == c.title && row.deal in c.deals
  }

  /** A row's column id names the column the card sits in. */
  lemma {:induction false} RowColumn(columns: seq<Column>, i: nat)
    requires i < |Rows(columns)|
    ensures exists k :: 0 <= k < |columns| && InColumn(Rows(columns)[i], columns[k])
  {
    var here := RowsOf(columns[0]);
    if i < |here| {
      assert Rows(columns)[i] == here[i];
      assert columns[0].deals[i] in columns[0].deals;
    } else {
      RowColumn(columns[1..], i - |here|);
      var k :| 0 <= k < |columns[1..]| && InColumn(Rows(columns[1..])[i - |here|], columns[1..][k]);
      assert columns[k + 1] == columns[1..][k];
    }
  }

  // ---------------------------------------------------------------------------
  // Saving a deal

  /** The deal dialog's form (`DealForm`): the deal's fields and the column
      chosen for it. */
  datatype DealEdit = DealEdit(id: string, name: string, value: string, owner: string, columnId: string)

  /** `openDeal`: the form starts from the row. */
  function EditOf(row: DealRow): DealEdit
  {
    DealEdit(row.deal.id, row.deal.name, row.deal.value, row.deal.owner, row.columnId)
  }

  /** The card the dialog saves: the edited id with the form's name, value
      and owner; any other field the card had is dropped. */
  function SavedDeal(id: string, form: DealEdit): Deal
  {
    Deal(id, form.name, form.value, form.owner, None, None)
  }

  /** `handleDealSave`: nothing changes when the chosen column does not exist;
      otherwise the card leaves every column and is appended to the chosen
      one. */
  function DealSaved(columns: seq<Column>, id: string, form: DealEdit): (r: seq<Column>)
    ensures ColumnIndex(columns, form.columnId).None? ==> r == columns
    ensures |r| == |columns|
    ensures forall k :: 0 <= k < |columns| ==> r[k].id == columns[k].id && r[k].title == columns[k].title
  {
    var next := DealRemove(columns, id);
    DealRemoveEffect(columns, id);
    match ColumnIndex(columns, form.columnId)
    case None => columns
    case Some(t) =>
      next[t := next[t].(deals := next[t].deals + [SavedDeal(id, form)])]
  }

  /** Where the saved card ends up: last in the chosen column (the first with
      that id), with every other card of every column left in place. */
  lemma DealSavedEffect(columns: seq<Column>, id: string, form: DealEdit, t: nat)
    requires ColumnIndex(columns, form.columnId) == Some(t)
    ensures var r := DealSaved(columns, id, form);
      && r[t].deals == WithoutDeal(columns[t].deals, id) + [SavedDeal(id, form)]
      && forall k :: 0 <= k < |columns| && k != t ==> r[k].deals == WithoutDeal(columns[k].deals, id)
  {
  }

  /** The card sits in exactly one column. */
  predicate OnlyIn(columns: seq<Column>, id: string, k: nat)
  {
    k < |columns| && HasDeal(columns[k].deals, id)
    && forall j :: 0 <= j < |columns| && j != k ==> !HasDeal(columns[j].deals, id)
  }

  /** Removing a card that sits in one column only changes that column. */
  lemma RemoveFromOne(columns: seq<Column>, id: string, k: nat)
    requires OnlyIn(columns, id, k)
    ensures DealRemove(columns, id) == columns[k := columns[k].(deals := WithoutDeal(columns[k].deals, id))]
  {
    forall j | 0 <= j < |columns| && j != k
      ensures WithoutDeal(columns[j].deals, id) == columns[j].deals
    {
      FilterKeepsAll(columns[j].deals, (d: Deal) => d.id != id);
    }
  }

  /** The bookkeeping behind `DealSavedTrades`: a column losing `o` and
      another gaining `n` make the whole board trade `o` for `n`. */
  lemma BagTrade<T>(after: multiset<T>, before: multiset<T>, lost: multiset<T>, kept: multiset<T>,
                    host: multiset<T>, grown: multiset<T>, o: multiset<T>, n: multiset<T>)
    requires after + lost + host == before + kept + grown
    requires kept + o == lost && grown == host + n
    ensures after + o == before + n
  {
    forall e
      ensures (after + o)[e] == (before + n)[e]
    {
      assert (after + lost + host)[e] == (before + kept + grown)[e];
      assert (kept + o)[e] == lost[e] && grown[e] == (host + n)[e];
    }
  }

  /** On a well-formed board, saving replaces the edited card by the saved
      one: the board keeps its number of cards, and its cards are the old ones
      with the edited card traded for the saved card. */
  lemma DealSavedTrades(columns: seq<Column>, id: string, form: DealEdit, k: nat, t: nat)
    requires WellFormed(columns) && OnlyIn(columns, id, k)
    requires ColumnIndex(columns, form.columnId) == Some(t)
    ensures var old_ := columns[k].deals[DealIndex(columns[k].deals, id)];
      multiset(AllDeals(DealSaved(columns, id, form))) + multiset{old_}
      == multiset(AllDeals(columns)) + multiset{SavedDeal(id, form)}
    ensures |AllDeals(DealSaved(columns, id, form))| == |AllDeals(columns)|
  {
    var j := DealIndex(columns[k].deals, id);
    var gone := columns[k].(deals := WithoutDeal(columns[k].deals, id));
    var mid := columns[k := gone];
    var saved := mid[t].(deals := mid[t].deals + [SavedDeal(id, form)]);
    var r := DealSaved(columns, id, form);
    RemoveFromOne(columns, id, k);
    assert r == mid[t := saved];
    WithoutUnique(columns[k].deals, id, j);
    AllDealsUpdateTwice(columns, k, gone, t, saved);
    var o, n := multiset{columns[k].deals[j]}, multiset{SavedDeal(id, form)};
    assert multiset(saved.deals) == multiset(mid[t].deals) + n;
    BagTrade(multiset(AllDeals(r)), multiset(AllDeals(columns)), multiset(columns[k].deals),
             multiset(gone.deals), multiset(mid[t].deals), multiset(saved.deals), o, n);
    assert |multiset(AllDeals(r)) + o| == |multiset(AllDeals(columns)) + n|;
  }

  // ---------------------------------------------------------------------------
  // The page

  class Page {
    var columns: seq<Column>
    var editingDeal: Option<Deal>
    var dealForm: Option<DealEdit>

    constructor (columns: seq<Column>)
      ensures this.columns == columns && editingDeal.None? && dealForm.None?
    {
      this.columns := columns;
      editingDeal := None;
      dealForm := None;
    }

    method OpenDeal(row: DealRow)
      modifies this
      ensures editingDeal == Some(row.deal) && dealForm == Some(EditOf(row)) && columns == old(columns)
    {
      editingDeal := Some(row.deal);
      dealForm := Some(EditOf(row));
    }

    /** The user edits the form. */
    method EditForm(form: DealEdit)
      modifies this
      ensures dealForm == Some(form) && editingDeal == old(editingDeal) && columns == old(columns)
    {
      dealForm := Some(form);
    }

    /** Saves the dialog and closes it; without an open dialog nothing
        happens. */
    method DealSave()
      modifies this
      ensures old(editingDeal).None? || old(dealForm).None? ==>
        columns == old(columns) && editingDeal == old(editingDeal) && dealForm == old(dealForm)
      ensures old(editingDeal).Some? && old(dealForm).Some? ==>
        columns == DealSaved(old(columns), old(editingDeal).value.id, old(dealForm).value)
        && editingDeal.None? && dealForm.None?
    {
      if editingDeal.None? || dealForm.None? {
        return;
      }
      columns := DealSaved(columns, editingDeal.value.id, dealForm.value);
      editingDeal := None;
      dealForm := None;
    }
  }
}
