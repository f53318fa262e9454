/** The finance page: expense categories, their sanitising on load and the
    migration away from the legacy category set, the expense list with its
    search and category filters, the per-category totals behind the chart,
    and the handlers that add, edit and remove expenses and categories.

    The colour palette the page draws from is a parameter `palette`; the
    clock (`Date.now()`) is a parameter `now`. */
module Finance {
  import opened Maybe
  import opened Seqs
  import opened Text
  import opened Numbers
  import opened JsonData

  datatype Category = Category(id: string, name: string, color: string)

  datatype Expense = Expense(
    id: string,
    title: string,
    amount: real,
    categoryId: string,
    comment: string,
    createdAt: string,
    contactIds: Option<seq<string>>)

  /** A string that is not blank and has no surrounding white space. */
  predicate NonBlankTrimmed(s: string)
  {
    s != [] && Trim(s) == s
  }

  /** What `normalizeCategory` produces: trimmed, non-blank id and name and a
      palette colour. */
  predicate Normalized(c: Category, palette: seq<string>)
  {
    NonBlankTrimmed(c.id) && NonBlankTrimmed(c.name) && c.color in palette
  }

  /** A category that is read back unchanged after being stored as JSON. */
  predicate Stored(c: Category)
  {
    NonBlankTrimmed(c.id) && NonBlankTrimmed(c.name) && Trim(c.color) == c.color
  }

  /** A category the page may hold: normalized, and read back unchanged. */
  predicate Storable(c: Category, palette: seq<string>)
  {
    Normalized(c, palette) && Stored(c)
  }

  /** Every palette entry is a colour code without surrounding white space. */
  predicate TrimmedColors(palette: seq<string>)
  {
    forall i :: 0 <= i < |palette| ==> Trim(palette[i]) == palette[i]
  }

  /** The ids, names and palette slots of the built-in categories
      (`defaultCategories`). */
  const DefaultIds: seq<string> := [
    "fin-cat-pessoal", "fin-cat-operacional", "fin-cat-fornecedores", "fin-cat-servicos",
    "fin-cat-marketing", "fin-cat-folha", "fin-cat-impostos", "fin-cat-tecnologia",
    "fin-cat-infra", "fin-cat-viagens", "fin-cat-treinamento", "fin-cat-outros"]

  const DefaultNames: seq<string> := [
    "Pessoal", "Operacional", "Fornecedores", "Servi\U{00E7}os",
    "Marketing", "Folha", "Impostos", "Tecnologia",
    "Infraestrutura", "Viagens", "Treinamento", "Outros"]

  const DefaultSlots: seq<nat> := [0, 1, 2, 3, 4, 5, 6, 7, 8, 9, 0, 1]

  /** The built-in categories. */
  function DefaultCategories(palette: seq<string>): (r: seq<Category>)
    requires |palette| >= 10
    ensures |r| == 12
    ensures forall i :: 0 <= i < 12 ==>
      r[i] == Category(DefaultIds[i], DefaultNames[i], palette[DefaultSlots[i]])
  {
    seq(12, i requires 0 <= i < 12 => Category(DefaultIds[i], DefaultNames[i], palette[DefaultSlots[i]]))
  }

  /** The ids of the legacy category set and the default each one became. */
  const LegacyIdMap: map<string, string> := map[
    "cat-moradia" := "fin-cat-infra",
    "cat-alimentacao" := "fin-cat-operacional",
    "cat-transporte" := "fin-cat-viagens",
    "cat-saude" := "fin-cat-servicos",
    "cat-lazer" := "fin-cat-pessoal",
    "cat-educacao" := "fin-cat-treinamento",
    "cat-assinaturas" := "fin-cat-tecnologia",
    "cat-impostos" := "fin-cat-impostos",
    "cat-investimentos" := "fin-cat-outros",
    "cat-viagem" := "fin-cat-viagens",
    "cat-compras" := "fin-cat-fornecedores",
    "cat-outros" := "fin-cat-outros"]

  /** The legacy ids whose presence forces the reset. */
  const LegacyIds: set<string> := {
    "cat-moradia", "cat-alimentacao", "cat-transporte", "cat-saude",
    "cat-lazer", "cat-educacao", "cat-assinaturas", "cat-impostos",
    "cat-investimentos", "cat-viagem", "cat-compras", "cat-outros"}

  /** The names of the current category set. */
  const NewNames: set<string> := {
    "Pessoal", "Operacional", "Fornecedores", "Servi\U{00E7}os", "Marketing",
    "Folha", "Impostos", "Tecnologia", "Infraestrutura", "Viagens",
    "Treinamento", "Outros"}

  // ---------------------------------------------------------------------
  // Sanitising stored categories

  /** `typeof v.key === "string" && v.key.trim()`: the member trimmed, when
      it is a string that is not blank. */
  function TrimmedMember(v: Json, key: string): (r: Option<string>)
    ensures r.Some? ==> NonBlankTrimmed(r.value)
    ensures r.Some? ==>
      Member(v, key).Some? && Member(v, key).value.JString? && r.value == Trim(Member(v, key).value.s)
    ensures r.None? ==>
      Member(v, key).None? || !Member(v, key).value.JString? || IsBlank(Member(v, key).value.s)
  {
    match Member(v, key)
    case Some(JString(s)) =>
      TrimIdempotent(s);
      if IsBlank(s) then None else Some(Trim(s))
    case _ => None
  }

  /** The id given to a stored category without one: `cat-${Date.now()}-${index}`. */
  function FallbackId(now: nat, index: nat): (r: string)
    ensures NonBlankTrimmed(r)
  {
    var r := "cat-" + NatToString(now) + "-" + NatToString(index);
    assert r[0] == 'c' && r[|r| - 1] == NatToString(index)[|NatToString(index)| - 1];
    TrimOfTrimmed(r);
    r
  }

  /** A colour is kept when the palette holds it, otherwise the palette entry
      at `index` (cycling) replaces it. */
  function PaletteColor(candidate: string, index: nat, palette: seq<string>): (r: string)
    requires |palette| > 0
    ensures r in palette
    ensures candidate in palette ==> r == candidate
    ensures candidate !in palette ==> r == palette[index % |palette|]
  {
    if candidate in palette then candidate else palette[index % |palette|]
  }

  /** `normalizeCategory`: a stored item becomes a category when its name is a
      string that is not blank. */
  function NormalizeCategory(cat: Json, index: nat, now: nat, palette: seq<string>): (r: Option<Category>)
    requires |palette| > 0
    ensures r.Some? <==> TrimmedMember(cat, "name").Some?
    ensures r.Some? ==> Normalized(r.value, palette)
    ensures r.Some? ==> r.value.name == TrimmedMember(cat, "name").value
    ensures r.Some? && TrimmedMember(cat, "id").Some? ==> r.value.id == TrimmedMember(cat, "id").value
    ensures r.Some? && TrimmedMember(cat, "id").None? ==> r.value.id == FallbackId(now, index)
    ensures r.Some? && TrimmedMember(cat, "color").Some? && TrimmedMember(cat, "color").value in palette ==>
      r.value.color == TrimmedMember(cat, "color").value
    ensures r.Some? && TrimmedColors(palette) ==> Stored(r.value)
  {
    match TrimmedMember(cat, "name")
    case None => None
    case Some(name) =>
      var id := match TrimmedMember(cat, "id") case Some(i) => i case None => FallbackId(now, index);
      var candidate := match TrimmedMember(cat, "color") case Some(c) => c case None => "";
      assert Trim(candidate) == candidate;
      Some(Category(id, name, PaletteColor(candidate, index, palette)))
  }

  /** `input.map(normalizeCategory).filter(Boolean)`, the items numbered from
      `start`. */
  function NormalizeFrom(items: seq<Json>, start: nat, now: nat, palette: seq<string>): (r: seq<Category>)
    requires |palette| > 0
    ensures |r| <= |items|
    ensures forall i :: 0 <= i < |r| ==> Normalized(r[i], palette)
    ensures TrimmedColors(palette) ==> forall i :: 0 <= i < |r| ==> Stored(r[i])
    decreases |items|
  {
    if items == [] then []
    else
      var rest := NormalizeFrom(items[1..], start + 1, now, palette);
      match NormalizeCategory(items[0], start, now, palette)
      case Some(c) => [c] + rest
      case None => rest
  }

  /** `sanitizeCategories`: anything but an array gives no categories; an
      array keeps, in order, the items whose name is usable. */
  function SanitizeCategories(input: Json, now: nat, palette: seq<string>): (r: seq<Category>)
    requires |palette| > 0
    ensures !input.JArray? ==> r == []
    ensures input.JArray? ==> |r| <= |input.items|
    ensures forall i :: 0 <= i < |r| ==> Normalized(r[i], palette)
    ensures TrimmedColors(palette) ==> forall i :: 0 <= i < |r| ==> Stored(r[i])
  {
    if input.JArray? then NormalizeFrom(input.items, 0, now, palette) else []
  }

  /** An item `normalizeCategory` accepts. */
  predicate HasName(v: Json)
  {
    TrimmedMember(v, "name").Some?
  }

  /** Exactly the items with a usable name survive sanitising. */
  lemma {:induction false} SanitizeKeepsNamed(items: seq<Json>, start: nat, now: nat, palette: seq<string>)
    requires |palette| > 0
    ensures |NormalizeFrom(items, start, now, palette)| == |Filter(items, HasName)|
    decreases |items|
  {
    if items != [] {
      SanitizeKeepsNamed(items[1..], start + 1, now, palette);
    }
  }

  /** A category as the page stores it: `{ id, name, color }`. */
  function CategoryJson(c: Category): Json
  {
    JObject([("id", JString(c.id)), ("name", JString(c.name)), ("color", JString(c.color))])
  }

  /** The members of a stored category. */
  lemma CategoryJsonMembers(c: Category)
    ensures Member(CategoryJson(c), "id") == Some(JString(c.id))
    ensures Member(CategoryJson(c), "name") == Some(JString(c.name))
    ensures Member(CategoryJson(c), "color") == Some(JString(c.color))
  {
    var fields := CategoryJson(c).fields;
    assert LastField(fields, "name") == Some(JString(c.name)) by {
      assert fields[2].0 != "name";
      assert fields[..2][1].0 == "name";
    }
    assert LastField(fields, "id") == Some(JString(c.id)) by {
      assert fields[2].0 != "id";
      assert fields[..2][1].0 != "id";
      assert fields[..2][..1][0].0 == "id";
    }
  }

  /** A stored category is read back as itself. */
  lemma NormalizeStored(c: Category, index: nat, now: nat, palette: seq<string>)
    requires |palette| > 0 && Storable(c, palette)
    ensures NormalizeCategory(CategoryJson(c), index, now, palette) == Some(c)
  {
    CategoryJsonMembers(c);
    assert TrimmedMember(CategoryJson(c), "name") == Some(c.name);
    assert TrimmedMember(CategoryJson(c), "id") == Some(c.id);
    if c.color != [] {
      assert TrimmedMember(CategoryJson(c), "color") == Some(c.color);
    }
  }

  lemma {:induction false} NormalizeFromStored(cats: seq<Category>, start: nat, now: nat, palette: seq<string>)
    requires |palette| > 0
    requires forall i :: 0 <= i < |cats| ==> Storable(cats[i], palette)
    ensures NormalizeFrom(Map(cats, CategoryJson), start, now, palette) == cats
    decreases |cats|
  {
    if cats != [] {
      var items := Map(cats, CategoryJson);
      assert items[0] == CategoryJson(cats[0]) && items[1..] == Map(cats[1..], CategoryJson);
      NormalizeStored(cats[0], start, now, palette);
      NormalizeFromStored(cats[1..], start + 1, now, palette);
    }
  }

  /** Round trip: storing categories the page produced and sanitising them
      again gives them back. */
  lemma SanitizeRoundTrip(cats: seq<Category>, now: nat, palette: seq<string>)
    requires |palette| > 0
    requires forall i :: 0 <= i < |cats| ==> Storable(cats[i], palette)
    ensures SanitizeCategories(JArray(Map(cats, CategoryJson)), now, palette) == cats
  {
    NormalizeFromStored(cats, 0, now, palette);
  }

  // ---------------------------------------------------------------------
  // The migration from the legacy category set

  predicate HasLegacyId(c: Category)
  {
    c.id in LegacyIds
  }

  predicate HasNewName(c: Category)
  {
    c.name in NewNames
  }

  /** `shouldResetFinanceCategories`: no categories, a legacy id, or none of
      the current names. */
  function ShouldReset(cats: seq<Category>): (r: bool)
    ensures r <==>
      cats == [] ||
      (exists i :: 0 <= i < |cats| && cats[i].id in LegacyIds) ||
      !(exists i :: 0 <= i < |cats| && cats[i].name in NewNames)
  {
    if cats == [] then true
    else if Any(cats, HasLegacyId) then true
    else !Any(cats, HasNewName)
  }

  /** The two legacy tables name the same ids. */
  lemma LegacyIdsAreMapKeys()
    ensures LegacyIds == LegacyIdMap.Keys
  {
  }

  /** No legacy id is mapped to another legacy id. */
  lemma TargetsAreNotKeys()
    ensures forall k :: k in LegacyIdMap ==> LegacyIdMap[k] !in LegacyIdMap
  {
    forall k | k in LegacyIdMap
      ensures LegacyIdMap[k] !in LegacyIdMap
    {
      assert LegacyIdMap[k][0] == 'f';
    }
  }

  /** The default categories are left alone by the reset rule. */
  lemma DefaultsDoNotReset(palette: seq<string>)
    requires |palette| >= 10
    ensures !ShouldReset(DefaultCategories(palette))
  {
    var d := DefaultCategories(palette);
    assert d[0].name in NewNames;
    forall i | 0 <= i < |d|
      ensures d[i].id !in LegacyIds
    {
      assert d[i].id[0] == 'f';
    }
  }

  /** A literal that starts and ends with a visible character is its own
      trim. */
  lemma LiteralTrimmed(s: string)
    requires s != [] && !IsSpace(s[0]) && !IsSpace(s[|s| - 1])
    ensures NonBlankTrimmed(s)
  {
    TrimOfTrimmed(s);
  }

  lemma DefaultIdsTrimmed()
    ensures forall i :: 0 <= i < 12 ==> NonBlankTrimmed(DefaultIds[i])
  {
    forall i | 0 <= i < 12
      ensures NonBlankTrimmed(DefaultIds[i])
    {
      if i == 0 {
        LiteralTrimmed(DefaultIds[0]);
      } else if i == 1 {
        LiteralTrimmed(DefaultIds[1]);
      } else if i == 2 {
        LiteralTrimmed(DefaultIds[2]);
      } else if i == 3 {
        LiteralTrimmed(DefaultIds[3]);
      } else if i == 4 {
        LiteralTrimmed(DefaultIds[4]);
      } else if i == 5 {
        LiteralTrimmed(DefaultIds[5]);
      } else if i == 6 {
        LiteralTrimmed(DefaultIds[6]);
      } else if i == 7 {
        LiteralTrimmed(DefaultIds[7]);
      } else if i == 8 {
        LiteralTrimmed(DefaultIds[8]);
      } else if i == 9 {
        LiteralTrimmed(DefaultIds[9]);
      } else if i == 10 {
        LiteralTrimmed(DefaultIds[10]);
      } else {
        LiteralTrimmed(DefaultIds[11]);
      }
    }
  }

  lemma DefaultNamesTrimmed()
    ensures forall i :: 0 <= i < 12 ==> NonBlankTrimmed(DefaultNames[i])
  {
    forall i | 0 <= i < 12
      ensures NonBlankTrimmed(DefaultNames[i])
    {
      if i == 0 {
        LiteralTrimmed(DefaultNames[0]);
      } else if i == 1 {
        LiteralTrimmed(DefaultNames[1]);
      } else if i == 2 {
        LiteralTrimmed(DefaultNames[2]);
      } else if i == 3 {
        LiteralTrimmed(DefaultNames[3]);
      } else if i == 4 {
        LiteralTrimmed(DefaultNames[4]);
      } else if i == 5 {
        LiteralTrimmed(DefaultNames[5]);
      } else if i == 6 {
        LiteralTrimmed(DefaultNames[6]);
      } else if i == 7 {
        LiteralTrimmed(DefaultNames[7]);
      } else if i == 8 {
        LiteralTrimmed(DefaultNames[8]);
      } else if i == 9 {
        LiteralTrimmed(DefaultNames[9]);
      } else if i == 10 {
        LiteralTrimmed(DefaultNames[10]);
      } else {
        LiteralTrimmed(DefaultNames[11]);
      }
    }
  }

  /** The default categories are normalized and survive storage. */
  lemma DefaultsStored(palette: seq<string>)
    requires |palette| >= 10 && TrimmedColors(palette)
    ensures forall i :: 0 <= i < 12 ==> Storable(DefaultCategories(palette)[i], palette)
  {
    DefaultIdsTrimmed();
    DefaultNamesTrimmed();
    var d := DefaultCategories(palette);
    forall i | 0 <= i < 12
      ensures d[i].color in palette
    {
    }
  }

  /** Every legacy id is mapped to the id of a default category. */
  lemma TargetsAreDefaults(palette: seq<string>)
    requires |palette| >= 10
    ensures forall k :: k in LegacyIdMap ==>
      exists i :: 0 <= i < 12 && DefaultCategories(palette)[i].id == LegacyIdMap[k]
  {
    var d := DefaultCategories(palette);
    forall k | k in LegacyIdMap
      ensures exists i :: 0 <= i < 12 && d[i].id == LegacyIdMap[k]
    {
      if LegacyIdMap[k] == d[8].id {
      } else if LegacyIdMap[k] == d[1].id {
      } else if LegacyIdMap[k] == d[9].id {
      } else if LegacyIdMap[k] == d[3].id {
      } else if LegacyIdMap[k] == d[0].id {
      } else if LegacyIdMap[k] == d[10].id {
      } else if LegacyIdMap[k] == d[7].id {
      } else if LegacyIdMap[k] == d[6].id {
      } else if LegacyIdMap[k] == d[11].id {
      } else {
        assert LegacyIdMap[k] == d[2].id;
      }
    }
  }

  /** One expense under `remapLegacyFinanceExpenseCategories`. */
  function RemapExpense(e: Expense): Expense
  {
    if e.categoryId in LegacyIdMap then e.(categoryId := LegacyIdMap[e.categoryId]) else e
  }

  /** `remapLegacyFinanceExpenseCategories`: legacy category ids are rewritten
      to their defaults, and nothing else about the list changes. */
  function RemapLegacy(expenses: seq<Expense>): (r: seq<Expense>)
    ensures |r| == |expenses|
    ensures forall i :: 0 <= i < |r| ==> r[i] == expenses[i].(categoryId := r[i].categoryId)
    ensures forall i :: 0 <= i < |r| && expenses[i].categoryId in LegacyIdMap ==>
      r[i].categoryId == LegacyIdMap[expenses[i].categoryId]
    ensures forall i :: 0 <= i < |r| && expenses[i].categoryId !in LegacyIdMap ==> r[i] == expenses[i]
  {
    Map(expenses, RemapExpense)
  }

  /** After remapping no expense refers to a legacy id. */
  lemma RemapClearsLegacy(expenses: seq<Expense>)
    ensures forall i :: 0 <= i < |expenses| ==> RemapLegacy(expenses)[i].categoryId !in LegacyIds
  {
    TargetsAreNotKeys();
    LegacyIdsAreMapKeys();
  }

  /** Remapping twice is remapping once. */
  lemma RemapIdempotent(expenses: seq<Expense>)
    ensures RemapLegacy(RemapLegacy(expenses)) == RemapLegacy(expenses)
  {
    var r := RemapLegacy(expenses);
    TargetsAreNotKeys();
    assert forall i :: 0 <= i < |r| ==> r[i].categoryId !in LegacyIdMap;
  }

  /** A remapped expense refers to one of the default categories. */
  lemma RemapIntoDefaults(expenses: seq<Expense>, palette: seq<string>, i: nat)
    requires |palette| >= 10 && i < |expenses| && expenses[i].categoryId in LegacyIdMap
    ensures exists j :: 0 <= j < 12 && DefaultCategories(palette)[j].id == RemapLegacy(expenses)[i].categoryId
  {
    TargetsAreDefaults(palette);
  }

  // ---------------------------------------------------------------------
  // Loading and settling the categories

  /** What the page writes back after a migration: `{ categories, expenses }`. */
  datatype Blob = Blob(categories: seq<Category>, expenses: seq<Expense>)

  datatype Loaded = Loaded(categories: seq<Category>, expenses: seq<Expense>, persist: Option<Blob>)

  /** The load step, for data read from the server or from local storage:
      `expensesInput` is None when the stored expenses are not an array, and
      `current` is the list the page shows until then. */
  function Load(categoriesInput: Json, expensesInput: Option<seq<Expense>>, current: seq<Expense>,
                now: nat, palette: seq<string>): (r: Loaded)
    requires |palette| >= 10
    ensures r.categories != [] && !ShouldReset(r.categories)
    ensures ShouldReset(SanitizeCategories(categoriesInput, now, palette)) ==>
      r.categories == DefaultCategories(palette) &&
      r.expenses == (if expensesInput.Some? then RemapLegacy(expensesInput.value) else current) &&
      r.persist == Some(Blob(r.categories, r.expenses))
    ensures !ShouldReset(SanitizeCategories(categoriesInput, now, palette)) ==>
      r.categories == SanitizeCategories(categoriesInput, now, palette) &&
      r.expenses == (if expensesInput.Some? then expensesInput.value else current) &&
      r.persist == None
  {
    var incoming := SanitizeCategories(categoriesInput, now, palette);
    if ShouldReset(incoming) then
      DefaultsDoNotReset(palette);
      var defaults := DefaultCategories(palette);
      var expenses := if expensesInput.Some? then RemapLegacy(expensesInput.value) else current;
      Loaded(defaults, expenses, Some(Blob(defaults, expenses)))
    else
      Loaded(incoming, if expensesInput.Some? then expensesInput.value else current, None)
  }

  /** Loading what a load wrote back migrates nothing further. */
  lemma LoadIsStable(categoriesInput: Json, expensesInput: Option<seq<Expense>>, current: seq<Expense>,
                     now: nat, palette: seq<string>, current2: seq<Expense>, now2: nat)
    requires |palette| >= 10 && TrimmedColors(palette)
    ensures var r := Load(categoriesInput, expensesInput, current, now, palette);
      Load(JArray(Map(r.categories, CategoryJson)), Some(r.expenses), current2, now2, palette)
        == Loaded(r.categories, r.expenses, None)
  {
    var r := Load(categoriesInput, expensesInput, current, now, palette);
    if ShouldReset(SanitizeCategories(categoriesInput, now, palette)) {
      DefaultsStored(palette);
    }
    SanitizeRoundTrip(r.categories, now2, palette);
  }

  /** The effect that runs whenever the categories change after loading: an
      empty list is refilled with the defaults, and a list the reset rule
      rejects is replaced by the defaults with the expenses remapped. */
  function SettleCategories(categories: seq<Category>, expenses: seq<Expense>, palette: seq<string>): (r: Blob)
    requires |palette| >= 10
    ensures r.categories != [] && !ShouldReset(r.categories)
    ensures categories == [] ==> r == Blob(DefaultCategories(palette), expenses)
    ensures categories != [] && ShouldReset(categories) ==>
      r == Blob(DefaultCategories(palette), RemapLegacy(expenses))
    ensures !ShouldReset(categories) ==> r == Blob(categories, expenses)
  {
    DefaultsDoNotReset(palette);
    if categories == [] then Blob(DefaultCategories(palette), expenses)
    else if ShouldReset(categories) then Blob(DefaultCategories(palette), RemapLegacy(expenses))
    else Blob(categories, expenses)
  }

  /** After a load the effect has nothing left to do. */
  lemma LoadIsSettled(categoriesInput: Json, expensesInput: Option<seq<Expense>>, current: seq<Expense>,
                      now: nat, palette: seq<string>)
    requires |palette| >= 10
    ensures var r := Load(categoriesInput, expensesInput, current, now, palette);
      SettleCategories(r.categories, r.expenses, palette) == Blob(r.categories, r.expenses)
  {
  }

  /** The effect keeping the expense form's category valid: a category id the
      list still holds is kept, otherwise the first category's id (or ""). */
  function SelectedCategory(categories: seq<Category>, categoryId: string): (r: string)
    ensures categories == [] ==> r == ""
    ensures categories != [] ==> exists i :: 0 <= i < |categories| && categories[i].id == r
    ensures categoryId != "" && (exists i :: 0 <= i < |categories| && categories[i].id == categoryId) ==>
      r == categoryId
  {
    if categoryId != "" && Any(categories, (c: Category) => c.id == categoryId) then categoryId
    else if categories != [] then categories[0].id
    else ""
  }

  /** Running the effect a second time changes nothing. */
  lemma SelectedCategoryStable(categories: seq<Category>, categoryId: string)
    ensures SelectedCategory(categories, SelectedCategory(categories, categoryId))
      == SelectedCategory(categories, categoryId)
  {
  }

  // ---------------------------------------------------------------------
  // Searching the expense list

  /** The search and category filter of the expense table: with selected
      categories only their expenses pass, and a query that is not blank must
      occur, ignoring case, in the title and comment joined by a space. */
  predicate Matches(e: Expense, query: string, filters: seq<string>)
  {
    (filters == [] || e.categoryId in filters) &&
    (SearchTerm(query) == [] || Includes(Haystack(e), SearchTerm(query)))
  }

  /** The text searched: title and comment joined by a space, lower-cased. */
  function Haystack(e: Expense): string
  {
    ToLower(e.title + " " + e.comment)
  }

  /** `filteredExpenses`, over the list already ordered by date. */
  function FilteredExpenses(sorted: seq<Expense>, query: string, filters: seq<string>): (r: seq<Expense>)
    ensures IsSubsequence(r, sorted)
    ensures forall i :: 0 <= i < |r| ==> Matches(r[i], query, filters)
    ensures forall i :: 0 <= i < |sorted| && Matches(sorted[i], query, filters) ==> sorted[i] in r
    ensures forall e :: multiset(r)[e] == if Matches(e, query, filters) then multiset(sorted)[e] else 0
  {
    var p := (e: Expense) => Matches(e, query, filters);
    FilterCounts(sorted, p);
    FilterIsSubsequence(sorted, p);
    FilterMembers(sorted, p);
    Filter(sorted, p)
  }

  /** A query that is not blank matches exactly where its lower-cased form
      occurs in the lower-cased text. */
  lemma MatchesIffOccurs(e: Expense, query: string, filters: seq<string>)
    requires !IsBlank(query)
    ensures Matches(e, query, filters) <==>
      (filters == [] || e.categoryId in filters) && exists i :: OccursAt(Haystack(e), SearchTerm(query), i)
  {
    IncludesIffOccurs(Haystack(e), SearchTerm(query));
  }

  /** With no category selected and a blank query every expense is shown, in
      its order. */
  lemma {:induction false} NoFilterShowsAll(sorted: seq<Expense>, query: string)
    requires IsBlank(query)
    ensures FilteredExpenses(sorted, query, []) == sorted
  {
    var p := (e: Expense) => Matches(e, query, []);
    assert forall i :: 0 <= i < |sorted| ==> p(sorted[i]);
    FilterKeepsAll(sorted, p);
  }

  // ---------------------------------------------------------------------
  // Totals per category for the chart

  /** The sum of the amounts of the expenses in category `id`
      (`totals.get(id) || 0`). */
  function AmountFor(expenses: seq<Expense>, id: string): real
  {
    if expenses == [] then 0.0
    else (if expenses[0].categoryId == id then expenses[0].amount else 0.0) + AmountFor(expenses[1..], id)
  }

  /** The expenses the chart counts: those of the selected categories, or all
      of them when none is selected. */
  function ChartExpenses(expenses: seq<Expense>, filters: seq<string>): seq<Expense>
  {
    if filters == [] then expenses else Filter(expenses, (e: Expense) => e.categoryId in filters)
  }

  lemma AmountForCons(e: Expense, s: seq<Expense>, id: string)
    ensures AmountFor([e] + s, id) == (if e.categoryId == id then e.amount else 0.0) + AmountFor(s, id)
  {
    assert ([e] + s)[1..] == s;
  }

  /** A filter that keeps every expense of category `id` keeps its total. */
  lemma {:induction false} AmountForKept(s: seq<Expense>, p: Expense -> bool, id: string)
    requires forall e :: e in s && e.categoryId == id ==> p(e)
    ensures AmountFor(Filter(s, p), id) == AmountFor(s, id)
  {
    if s != [] {
      assert s[0] in s;
      AmountForKept(s[1..], p, id);
      if p(s[0]) {
        AmountForCons(s[0], Filter(s[1..], p), id);
      } else {
        assert Filter(s, p) == Filter(s[1..], p);
      }
    }
  }

  /** A filter that drops every expense of category `id` leaves it no total. */
  lemma {:induction false} AmountForDropped(s: seq<Expense>, p: Expense -> bool, id: string)
    requires forall e :: e in s && e.categoryId == id ==> !p(e)
    ensures AmountFor(Filter(s, p), id) == 0.0
  {
    if s != [] {
      assert s[0] in s;
      AmountForDropped(s[1..], p, id);
      if p(s[0]) {
        AmountForCons(s[0], Filter(s[1..], p), id);
      } else {
        assert Filter(s, p) == Filter(s[1..], p);
      }
    }
  }

  /** Selecting categories hides the others from the chart and leaves the
      totals of the selected ones as they are. */
  lemma ChartFilterKeepsTotals(expenses: seq<Expense>, filters: seq<string>, id: string)
    ensures id in filters || filters == [] ==> AmountFor(ChartExpenses(expenses, filters), id) == AmountFor(expenses, id)
    ensures id !in filters && filters != [] ==> AmountFor(ChartExpenses(expenses, filters), id) == 0.0
  {
    if filters != [] {
      var p := (e: Expense) => e.categoryId in filters;
      if id in filters {
        AmountForKept(expenses, p, id);
      } else {
        AmountForDropped(expenses, p, id);
      }
    }
  }

  datatype CategoryTotal = CategoryTotal(id: string, name: string, value: real, color: string)

  /** One chart entry per category, in the order of the categories. */
  function Entries(categories: seq<Category>, chart: seq<Expense>): (r: seq<CategoryTotal>)
    ensures |r| == |categories|
    ensures forall i :: 0 <= i < |r| ==>
      r[i] == CategoryTotal(categories[i].id, categories[i].name, AmountFor(chart, categories[i].id), categories[i].color)
  {
    if categories == [] then []
    else
      var c := categories[0];
      [CategoryTotal(c.id, c.name, AmountFor(chart, c.id), c.color)] + Entries(categories[1..], chart)
  }

  predicate Positive(t: CategoryTotal)
  {
    t.value > 0.0
  }

  /** Largest value first. */
  predicate Descending(s: seq<CategoryTotal>)
  {
    forall i, j :: 0 <= i < j < |s| ==> s[i].value >= s[j].value
  }

  /** Inserting `x` after every entry whose value is at least its own, which
      keeps entries of equal value in the order they arrived. */
  function InsertByValue(x: CategoryTotal, s: seq<CategoryTotal>): (r: seq<CategoryTotal>)
    ensures multiset(r) == multiset(s) + multiset{x}
  {
    if s == [] then [x]
    else if s[0].value >= x.value then
      assert s == [s[0]] + s[1..];
      [s[0]] + InsertByValue(x, s[1..])
    else [x] + s
  }

  /** Inserting into a descending list keeps it descending. */
  lemma {:induction false} InsertKeepsDescending(x: CategoryTotal, s: seq<CategoryTotal>)
    requires Descending(s)
    ensures Descending(InsertByValue(x, s))
  {
    if s != [] && s[0].value >= x.value {
      var t := InsertByValue(x, s[1..]);
      InsertKeepsDescending(x, s[1..]);
      assert s == [s[0]] + s[1..];
      forall k | 0 <= k < |t|
        ensures s[0].value >= t[k].value
      {
        assert t[k] in multiset(s[1..]) + multiset{x};
      }
    }
  }

  /** The stable sort by `(a, b) => b.value - a.value`. */
  function SortByValue(s: seq<CategoryTotal>): (r: seq<CategoryTotal>)
    ensures multiset(r) == multiset(s)
    ensures Descending(r)
  {
    if s == [] then []
    else
      assert s == s[..|s| - 1] + [s[|s| - 1]];
      InsertKeepsDescending(s[|s| - 1], SortByValue(s[..|s| - 1]));
      InsertByValue(s[|s| - 1], SortByValue(s[..|s| - 1]))
  }

  /** `totalsByCategory`: the categories with a positive total over the
      charted expenses, largest total first. */
  function TotalsByCategory(categories: seq<Category>, expenses: seq<Expense>, filters: seq<string>): (r: seq<CategoryTotal>)
    ensures forall i :: 0 <= i < |r| ==> r[i].value > 0.0
    ensures Descending(r)
    ensures multiset(r) == multiset(Filter(Entries(categories, ChartExpenses(expenses, filters)), Positive))
  {
    var r := SortByValue(Filter(Entries(categories, ChartExpenses(expenses, filters)), Positive));
    assert forall i :: 0 <= i < |r| ==> r[i] in multiset(Filter(Entries(categories, ChartExpenses(expenses, filters)), Positive));
    r
  }

  /** The chart shows a category exactly when its total is positive. */
  lemma TotalsByCategoryShows(categories: seq<Category>, expenses: seq<Expense>, filters: seq<string>, k: nat)
    requires k < |categories|
    ensures var chart := ChartExpenses(expenses, filters);
      var entry := CategoryTotal(categories[k].id, categories[k].name, AmountFor(chart, categories[k].id), categories[k].color);
      entry in TotalsByCategory(categories, expenses, filters) <==> AmountFor(chart, categories[k].id) > 0.0
  {
    var chart := ChartExpenses(expenses, filters);
    var entries := Entries(categories, chart);
    var entry := entries[k];
    var r := TotalsByCategory(categories, expenses, filters);
    FilterMembers(entries, Positive);
    assert entry in r <==> entry in multiset(r);
    assert entry in Filter(entries, Positive) <==> entry in multiset(Filter(entries, Positive));
  }

  // ---------------------------------------------------------------------
  // Saving an expense

  /** The fields of the expense dialog. */
  datatype ExpenseForm = ExpenseForm(title: string, amount: string, categoryId: string, comment: string, contactIds: seq<string>)

  /** `Number(amount.replace(",", "."))`, None for NaN. */
  function ParseAmount(text: string): Option<real>
  {
    ParseNumber(CommaToPoint(text))
  }

  /** `editingExpenseId` is truthy. */
  predicate Editing(editingId: Option<string>)
  {
    editingId.Some? && editingId.value != ""
  }

  function NewExpenseId(now: nat): string
  {
    "exp-" + NatToString(now)
  }

  /** `handleSaveExpense`: None when the handler returns early, otherwise the
      new expense list. `createdAt` is the current time as an ISO string. */
  function SaveExpense(expenses: seq<Expense>, form: ExpenseForm, editingId: Option<string>,
                       canEdit: bool, now: nat, createdAt: string): (r: Option<seq<Expense>>)
    ensures r.Some? <==> canEdit && !IsBlank(form.title) && ParseAmount(form.amount).Some?
    ensures r.Some? && !Editing(editingId) ==>
      |r.value| == |expenses| + 1 && r.value[1..] == expenses &&
      r.value[0] == Expense(NewExpenseId(now), Trim(form.title), ParseAmount(form.amount).value,
                            form.categoryId, Trim(form.comment), createdAt, Some(form.contactIds))
    ensures r.Some? && Editing(editingId) ==> |r.value| == |expenses|
    ensures r.Some? && Editing(editingId) ==> forall i :: 0 <= i < |expenses| ==>
      r.value[i].id == expenses[i].id && r.value[i].createdAt == expenses[i].createdAt &&
      (expenses[i].id != editingId.value ==> r.value[i] == expenses[i]) &&
      (expenses[i].id == editingId.value ==>
        r.value[i].title == Trim(form.title) && r.value[i].amount == ParseAmount(form.amount).value &&
        r.value[i].categoryId == form.categoryId && r.value[i].comment == Trim(form.comment) &&
        r.value[i].contactIds == Some(form.contactIds))
  {
    if !canEdit || IsBlank(form.title) then None
    else match ParseAmount(form.amount)
      case None => None
      case Some(amount) =>
        if Editing(editingId) then
          Some(Map(expenses, (e: Expense) =>
            if e.id == editingId.value
            then e.(title := Trim(form.title), amount := amount, categoryId := form.categoryId,
                    comment := Trim(form.comment), contactIds := Some(form.contactIds))
            else e))
        else
          Some([Expense(NewExpenseId(now), Trim(form.title), amount, form.categoryId,
                        Trim(form.comment), createdAt, Some(form.contactIds))] + expenses)
  }

  /** The dialog filled from an expense (`handleEditOpen`); `amountText` is
      the amount as `String(amount)` prints it. */
  function OpenedForm(e: Expense, amountText: string): ExpenseForm
  {
    ExpenseForm(e.title, amountText, e.categoryId, e.comment,
                match e.contactIds case Some(ids) => ids case None => [])
  }

  /** A whole amount renders as digits, and the digits read back as it. */
  lemma WholeAmountReadsBack(n: nat)
    ensures ParseAmount(NatToString(n)) == Some(n as real)
  {
    var s := NatToString(n);
    assert ',' !in s;
    ParseNatToString(n);
  }

  /** Opening an expense and saving without changes leaves the list as it
      was, when the expense was saved through the dialog before. */
  lemma ReopenUnchanged(expenses: seq<Expense>, e: Expense, n: nat, now: nat, createdAt: string)
    requires forall i :: 0 <= i < |expenses| && expenses[i].id == e.id ==> expenses[i] == e
    requires e.id != "" && NonBlankTrimmed(e.title) && Trim(e.comment) == e.comment
    requires e.amount == n as real && e.contactIds.Some?
    ensures SaveExpense(expenses, OpenedForm(e, NatToString(n)), Some(e.id), true, now, createdAt) == Some(expenses)
  {
    WholeAmountReadsBack(n);
    var r := SaveExpense(expenses, OpenedForm(e, NatToString(n)), Some(e.id), true, now, createdAt);
    assert r.Some?;
    assert r.value == expenses;
  }

  /** Adding keeps expense ids distinct when the new id is fresh. */
  lemma SaveNewKeepsIdsDistinct(expenses: seq<Expense>, form: ExpenseForm, canEdit: bool, now: nat, createdAt: string)
    requires forall i, j :: 0 <= i < j < |expenses| ==> expenses[i].id != expenses[j].id
    requires forall i :: 0 <= i < |expenses| ==> expenses[i].id != NewExpenseId(now)
    requires SaveExpense(expenses, form, None, canEdit, now, createdAt).Some?
    ensures var r := SaveExpense(expenses, form, None, canEdit, now, createdAt).value;
      forall i, j :: 0 <= i < j < |r| ==> r[i].id != r[j].id
  {
    var r := SaveExpense(expenses, form, None, canEdit, now, createdAt).value;
    forall i, j | 0 <= i < j < |r|
      ensures r[i].id != r[j].id
    {
      assert r[j] == expenses[j - 1];
      if i > 0 {
        assert r[i] == expenses[i - 1];
      }
    }
  }

  /** Removing the viewed expense: every expense with its id goes, the rest
      stay in order. */
  function RemoveExpense(expenses: seq<Expense>, id: string): (r: seq<Expense>)
    ensures IsSubsequence(r, expenses)
    ensures forall i :: 0 <= i < |r| ==> r[i].id != id
    ensures forall i :: 0 <= i < |expenses| && expenses[i].id != id ==> expenses[i] in r
    ensures forall e :: multiset(r)[e] == if e.id != id then multiset(expenses)[e] else 0
  {
    var p := (e: Expense) => e.id != id;
    FilterCounts(expenses, p);
    FilterIsSubsequence(expenses, p);
    FilterMembers(expenses, p);
    Filter(expenses, p)
  }

  // ---------------------------------------------------------------------
  // Editing the categories

  /** The category with a given id exists. */
  predicate HasCategory(categories: seq<Category>, id: string)
  {
    exists j :: 0 <= j < |categories| && categories[j].id == id
  }

  /** Every expense refers to an existing category. */
  predicate References(categories: seq<Category>, expenses: seq<Expense>)
  {
    forall i :: 0 <= i < |expenses| ==> HasCategory(categories, expenses[i].categoryId)
  }

  function NewCategoryId(now: nat): string
  {
    "cat-" + NatToString(now)
  }

  /** `handleAddCategory`: None when the name is blank; otherwise the category
      is appended, with a colour the palette holds. */
  function AddCategory(categories: seq<Category>, name: string, color: string, now: nat, palette: seq<string>): (r: Option<seq<Category>>)
    requires |palette| > 0
    ensures r.Some? <==> !IsBlank(name)
    ensures r.Some? ==>
      |r.value| == |categories| + 1 &&
      r.value == categories + [Category(NewCategoryId(now), Trim(name), r.value[|categories|].color)]
    ensures r.Some? ==> r.value[|categories|].color in palette
    ensures r.Some? && color in palette ==> r.value[|categories|].color == color
  {
    var trimmed := Trim(name);
    var chosen := PaletteColor(color, 0, palette);
    if trimmed == [] then None else Some(categories + [Category(NewCategoryId(now), trimmed, chosen)])
  }

  /** The list without the categories of a given id. */
  function WithoutCategory(categories: seq<Category>, id: string): (r: seq<Category>)
    ensures IsSubsequence(r, categories)
    ensures forall i :: 0 <= i < |r| ==> r[i].id != id
    ensures forall i :: 0 <= i < |categories| && categories[i].id != id ==> categories[i] in r
    ensures forall c :: multiset(r)[c] == if c.id != id then multiset(categories)[c] else 0
  {
    var p := (c: Category) => c.id != id;
    FilterCounts(categories, p);
    FilterIsSubsequence(categories, p);
    FilterMembers(categories, p);
    Filter(categories, p)
  }

  datatype Removal = Removal(categories: seq<Category>, fallback: string, expenses: seq<Expense>)

  /** `handleRemoveCategory`: the list never ends up empty, and the expenses
      of the removed category move to the first remaining one. */
  function RemoveCategory(categories: seq<Category>, expenses: seq<Expense>, id: string,
                          now: nat, palette: seq<string>): (r: Removal)
    requires |palette| > 0
    ensures r.categories != [] && r.fallback == r.categories[0].id
    ensures WithoutCategory(categories, id) != [] ==> r.categories == WithoutCategory(categories, id)
    ensures WithoutCategory(categories, id) == [] ==>
      r.categories == [Category(NewCategoryId(now), "Sem categoria", palette[0])]
    ensures |r.expenses| == |expenses|
    ensures forall i :: 0 <= i < |expenses| && expenses[i].categoryId == id ==>
      r.expenses[i] == expenses[i].(categoryId := r.fallback)
    ensures forall i :: 0 <= i < |expenses| && expenses[i].categoryId != id ==> r.expenses[i] == expenses[i]
  {
    var remaining := WithoutCategory(categories, id);
    var next := if remaining == [] then [Category(NewCategoryId(now), "Sem categoria", palette[0])] else remaining;
    var fallback := next[0].id;
    Removal(next, fallback, Map(expenses, (e: Expense) => if e.categoryId == id then e.(categoryId := fallback) else e))
  }

  /** Removing a category keeps every expense pointing at an existing
      category. */
  lemma RemoveKeepsReferences(categories: seq<Category>, expenses: seq<Expense>, id: string, now: nat, palette: seq<string>)
    requires |palette| > 0 && References(categories, expenses)
    ensures var r := RemoveCategory(categories, expenses, id, now, palette);
      References(r.categories, r.expenses)
  {
    var r := RemoveCategory(categories, expenses, id, now, palette);
    forall i | 0 <= i < |r.expenses|
      ensures HasCategory(r.categories, r.expenses[i].categoryId)
    {
      if expenses[i].categoryId == id {
        assert r.categories[0].id == r.expenses[i].categoryId;
      } else {
        var j :| 0 <= j < |categories| && categories[j].id == expenses[i].categoryId;
        var k :| 0 <= k < |r.categories| && r.categories[k] == categories[j];
      }
    }
  }

  /** Adding a category and removing it again gives the list back, expenses
      included, when the new id is fresh. */
  lemma AddThenRemoveCategory(categories: seq<Category>, expenses: seq<Expense>, name: string, color: string,
                              now: nat, later: nat, palette: seq<string>)
    requires |palette| > 0 && categories != [] && !IsBlank(name)
    requires forall i :: 0 <= i < |categories| ==> categories[i].id != NewCategoryId(now)
    requires forall i :: 0 <= i < |expenses| ==> expenses[i].categoryId != NewCategoryId(now)
    ensures var added := AddCategory(categories, name, color, now, palette).value;
      var r := RemoveCategory(added, expenses, NewCategoryId(now), later, palette);
      r.categories == categories && r.expenses == expenses
  {
    var added := AddCategory(categories, name, color, now, palette).value;
    var p := (c: Category) => c.id != NewCategoryId(now);
    FilterAppend(categories, [added[|categories|]], p);
    assert Filter([added[|categories|]], p) == [];
    assert forall i :: 0 <= i < |categories| ==> p(categories[i]);
    FilterKeepsAll(categories, p);
    var r := RemoveCategory(added, expenses, NewCategoryId(now), later, palette);
    assert r.expenses == expenses;
  }

  /** `startEditCategory`: the editor's id, name and colour. */
  datatype CategoryEditor = CategoryEditor(id: Option<string>, name: string, color: string)

  function StartEditCategory(c: Category, palette: seq<string>): (r: CategoryEditor)
    requires |palette| > 0
    ensures r.id == Some(c.id) && r.name == c.name && r.color in palette
    ensures c.color in palette ==> r.color == c.color
  {
    CategoryEditor(Some(c.id), c.name, PaletteColor(c.color, 0, palette))
  }

  /** `saveCategory`: None when no category is being edited or the name is
      blank; otherwise the edited category takes the new name and colour. */
  function SaveCategory(categories: seq<Category>, editor: CategoryEditor, palette: seq<string>): (r: Option<seq<Category>>)
    requires |palette| > 0
    ensures r.Some? <==> Editing(editor.id) && !IsBlank(editor.name)
    ensures r.Some? ==> |r.value| == |categories|
    ensures r.Some? ==> forall i :: 0 <= i < |categories| ==>
      r.value[i].id == categories[i].id &&
      (categories[i].id != editor.id.value ==> r.value[i] == categories[i]) &&
      (categories[i].id == editor.id.value ==>
        r.value[i].name == Trim(editor.name) && r.value[i].color in palette &&
        (editor.color in palette ==> r.value[i].color == editor.color))
  {
    if !Editing(editor.id) then None
    else
      var name := Trim(editor.name);
      if name == [] then None
      else
        var color := PaletteColor(editor.color, 0, palette);
        Some(Map(categories, (c: Category) => if c.id == editor.id.value then c.(name := name, color := color) else c))
  }

  /** Renaming keeps every expense pointing at an existing category. */
  lemma SaveCategoryKeepsReferences(categories: seq<Category>, expenses: seq<Expense>, editor: CategoryEditor, palette: seq<string>)
    requires |palette| > 0 && References(categories, expenses)
    requires SaveCategory(categories, editor, palette).Some?
    ensures References(SaveCategory(categories, editor, palette).value, expenses)
  {
    var r := SaveCategory(categories, editor, palette).value;
    forall i | 0 <= i < |expenses|
      ensures HasCategory(r, expenses[i].categoryId)
    {
      var j :| 0 <= j < |categories| && categories[j].id == expenses[i].categoryId;
      assert r[j].id == categories[j].id;
    }
  }

  /** Opening the editor on a category and saving without changes leaves the
      list as it was. */
  lemma EditCategoryUnchanged(categories: seq<Category>, c: Category, palette: seq<string>)
    requires |palette| > 0 && Normalized(c, palette)
    requires forall i :: 0 <= i < |categories| && categories[i].id == c.id ==> categories[i] == c
    ensures SaveCategory(categories, StartEditCategory(c, palette), palette) == Some(categories)
  {
    var r := SaveCategory(categories, StartEditCategory(c, palette), palette);
    assert r.Some?;
    assert r.value == categories;
  }

  // ---------------------------------------------------------------------
  // Restoring the defaults, and undoing it

  datatype TablePosition = Above | Below

  /** Which columns the expense table shows. */
  datatype TableFields = TableFields(title: bool, category: bool, amount: bool, date: bool, comment: bool)

  const DefaultTableFields := TableFields(true, true, true, true, true)

  /** The open panel of the settings dialog (`"categories" | "table" | false`). */
  datatype Accordion = Collapsed | CategoriesPanel | TablePanel

  /** The settings the restore button resets, which its undo puts back. */
  datatype Settings = Settings(
    categories: seq<Category>,
    tableFields: TableFields,
    tablePosition: TablePosition,
    showCategoryChart: bool,
    showMonthlyChart: bool,
    accordion: Accordion,
    newCategoryName: string,
    newCategoryColor: string,
    editor: CategoryEditor)

  /** The settings the page starts with: the built-in categories, every
      table column shown above the charts, both charts on, the dialog
      collapsed, an empty new-category name with the first palette colour,
      and no category being edited. */
  function InitialSettings(palette: seq<string>): (r: Settings)
    requires |palette| >= 10
    ensures r.categories == DefaultCategories(palette) && r.tableFields == DefaultTableFields
    ensures r.tablePosition == Above && r.showCategoryChart && r.showMonthlyChart && r.accordion == Collapsed
    ensures r.newCategoryName == "" && r.newCategoryColor == palette[0]
    ensures r.editor == CategoryEditor(None, "", palette[0])
  {
    Settings(DefaultCategories(palette), DefaultTableFields, Above, true, true, Collapsed,
             "", palette[0], CategoryEditor(None, "", palette[0]))
  }

  /** `handleRestoreFinanceDefaults`: everything back to its initial value,
      except that the category editor is only closed and keeps its name and
      colour. */
  function RestoredSettings(s: Settings, palette: seq<string>): (r: Settings)
    requires |palette| >= 10
    ensures r == InitialSettings(palette).(editor := r.editor)
    ensures r.categories != [] && !ShouldReset(r.categories)
    ensures r.editor.id == None && r.editor.name == s.editor.name && r.editor.color == s.editor.color
  {
    DefaultsDoNotReset(palette);
    Settings(DefaultCategories(palette), DefaultTableFields, Above, true, true, Collapsed,
             "", palette[0], s.editor.(id := None))
  }

  /** Restoring the defaults on a page that has not been edited since it
      opened gives back the settings it opened with. */
  lemma RestoreInitial(palette: seq<string>)
    requires |palette| >= 10
    ensures RestoredSettings(InitialSettings(palette), palette) == InitialSettings(palette)
  {
  }

  /** Restoring twice is restoring once. */
  lemma RestoreIdempotent(s: Settings, palette: seq<string>)
    requires |palette| >= 10
    ensures RestoredSettings(RestoredSettings(s, palette), palette) == RestoredSettings(s, palette)
  {
  }

  // ---------------------------------------------------------------------
  // The page

  /** The state cells of the finance page and the handlers that replace
      them. */
  class Page {
    const palette: seq<string>
    const canEdit: bool
    var loaded: bool
    var settings: Settings
    var expenses: seq<Expense>
    var form: ExpenseForm
    var editingExpenseId: Option<string>
    var dialogOpen: bool
    var viewing: Option<Expense>
    var removeConfirmOpen: bool
    var snapshot: Option<Settings>
    var snackbarOpen: bool

    /** The initial state; `initialExpenses` are the sample expenses, whose
        dates depend on the clock. */
    constructor (palette: seq<string>, initialExpenses: seq<Expense>, canEdit: bool)
      requires |palette| >= 10
      ensures this.palette == palette && this.canEdit == canEdit && !loaded
      ensures settings == InitialSettings(palette)
      ensures expenses == initialExpenses
      ensures form == ExpenseForm("", "", "fin-cat-pessoal", "", []) && editingExpenseId == None && !dialogOpen
      ensures viewing == None && !removeConfirmOpen && snapshot == None && !snackbarOpen
    {
      this.palette := palette;
      this.canEdit := canEdit;
      loaded := false;
      settings := InitialSettings(palette);
      expenses := initialExpenses;
      form := ExpenseForm("", "", "fin-cat-pessoal", "", []);
      editingExpenseId := None;
      dialogOpen := false;
      viewing := None;
      removeConfirmOpen := false;
      snapshot := None;
      snackbarOpen := false;
    }

    /** The load on mount; `persist` is what it writes back after a
        migration. */
    method LoadData(categoriesInput: Json, expensesInput: Option<seq<Expense>>, now: nat) returns (persist: Option<Blob>)
      requires |palette| >= 10
      modifies this
      ensures var r := Load(categoriesInput, expensesInput, old(expenses), now, palette);
        settings == old(settings).(categories := r.categories) && expenses == r.expenses && persist == r.persist
      ensures loaded && form == old(form) && editingExpenseId == old(editingExpenseId)
      ensures snapshot == old(snapshot)
    {
      var r := Load(categoriesInput, expensesInput, expenses, now, palette);
      settings := settings.(categories := r.categories);
      expenses := r.expenses;
      persist := r.persist;
      loaded := true;
    }

    /** The effect on a change of categories, which waits for the load. */
    method SettleEffect()
      requires |palette| >= 10
      modifies this
      ensures old(loaded) ==>
        var b := SettleCategories(old(settings.categories), old(expenses), palette);
        settings == old(settings).(categories := b.categories) && expenses == b.expenses
      ensures !old(loaded) ==> settings == old(settings) && expenses == old(expenses)
      ensures loaded == old(loaded) && form == old(form)
    {
      if loaded {
        var b := SettleCategories(settings.categories, expenses, palette);
        settings := settings.(categories := b.categories);
        expenses := b.expenses;
      }
    }

    /** The effect keeping the form's category one the list holds. */
    method SelectEffect()
      modifies this
      ensures form == old(form).(categoryId := SelectedCategory(settings.categories, old(form.categoryId)))
      ensures settings == old(settings) && expenses == old(expenses)
    {
      form := form.(categoryId := SelectedCategory(settings.categories, form.categoryId));
    }

    /** `openNewExpense`. */
    method OpenNewExpense()
      modifies this
      ensures editingExpenseId == None && dialogOpen
      ensures form == ExpenseForm("", "", if settings.categories == [] then "" else settings.categories[0].id, "", [])
      ensures settings == old(settings) && expenses == old(expenses)
    {
      editingExpenseId := None;
      form := ExpenseForm("", "", if settings.categories == [] then "" else settings.categories[0].id, "", []);
      dialogOpen := true;
    }

    /** `handleEditOpen`; `amountText` is `String(e.amount)`. */
    method EditOpen(e: Expense, amountText: string)
      modifies this
      ensures editingExpenseId == Some(e.id) && form == OpenedForm(e, amountText) && dialogOpen
      ensures settings == old(settings) && expenses == old(expenses)
    {
      editingExpenseId := Some(e.id);
      form := OpenedForm(e, amountText);
      dialogOpen := true;
    }

    /** `handleSaveExpense`: on success the dialog closes and its fields are
        cleared, the category choice staying. */
    method SaveExpenseClick(now: nat, createdAt: string)
      modifies this
      ensures var r := SaveExpense(old(expenses), old(form), old(editingExpenseId), canEdit, now, createdAt);
        if r.Some? then
          expenses == r.value && form == ExpenseForm("", "", old(form.categoryId), "", []) &&
          editingExpenseId == None && !dialogOpen
        else
          expenses == old(expenses) && form == old(form) &&
          editingExpenseId == old(editingExpenseId) && dialogOpen == old(dialogOpen)
      ensures settings == old(settings)
    {
      var r := SaveExpense(expenses, form, editingExpenseId, canEdit, now, createdAt);
      if r.Some? {
        expenses := r.value;
        form := ExpenseForm("", "", form.categoryId, "", []);
        editingExpenseId := None;
        dialogOpen := false;
      }
    }

    method ViewOpen(e: Expense)
      modifies this
      ensures viewing == Some(e)
      ensures expenses == old(expenses) && settings == old(settings)
    {
      viewing := Some(e);
    }

    method ViewClose()
      modifies this
      ensures viewing == None && !removeConfirmOpen
      ensures expenses == old(expenses) && settings == old(settings)
    {
      viewing := None;
      removeConfirmOpen := false;
    }

    /** The confirmation of the remove dialog: the viewed expense goes. */
    method RemoveViewedExpense()
      modifies this
      ensures old(viewing).Some? ==>
        expenses == RemoveExpense(old(expenses), old(viewing).value.id) && viewing == None && !removeConfirmOpen
      ensures old(viewing).None? ==> expenses == old(expenses) && viewing == None
      ensures settings == old(settings)
    {
      if viewing.Some? {
        expenses := RemoveExpense(expenses, viewing.value.id);
        viewing := None;
        removeConfirmOpen := false;
      }
    }

    /** `handleAddCategory`. */
    method AddCategoryClick(now: nat)
      requires |palette| >= 10
      modifies this
      ensures var r := AddCategory(old(settings.categories), old(settings.newCategoryName), old(settings.newCategoryColor), now, palette);
        if r.Some? then settings == old(settings).(categories := r.value, newCategoryName := "")
        else settings == old(settings)
      ensures expenses == old(expenses)
    {
      var r := AddCategory(settings.categories, settings.newCategoryName, settings.newCategoryColor, now, palette);
      if r.Some? {
        settings := settings.(categories := r.value, newCategoryName := "");
      }
    }

    /** `handleRemoveCategory`: the form's category becomes the fallback. */
    method RemoveCategoryClick(id: string, now: nat)
      requires |palette| >= 10
      modifies this
      ensures var r := RemoveCategory(old(settings.categories), old(expenses), id, now, palette);
        settings == old(settings).(categories := r.categories) && expenses == r.expenses &&
        form == old(form).(categoryId := r.fallback)
      ensures References(old(settings.categories), old(expenses)) ==> References(settings.categories, expenses)
      ensures settings.categories != [] && HasCategory(settings.categories, form.categoryId)
    {
      if References(settings.categories, expenses) {
        RemoveKeepsReferences(settings.categories, expenses, id, now, palette);
      }
      var r := RemoveCategory(settings.categories, expenses, id, now, palette);
      settings := settings.(categories := r.categories);
      expenses := r.expenses;
      form := form.(categoryId := r.fallback);
    }

    /** `startEditCategory`. */
    method StartEditCategoryClick(c: Category)
      requires |palette| >= 10
      modifies this
      ensures settings == old(settings).(editor := StartEditCategory(c, palette))
      ensures expenses == old(expenses)
    {
      settings := settings.(editor := StartEditCategory(c, palette));
    }

    /** `cancelEditCategory`. */
    method CancelEditCategory()
      modifies this
      ensures settings == old(settings).(editor := old(settings.editor).(id := None))
      ensures expenses == old(expenses)
    {
      settings := settings.(editor := settings.editor.(id := None));
    }

    /** `saveCategory`: on success the editor closes. */
    method SaveCategoryClick()
      requires |palette| >= 10
      modifies this
      ensures var r := SaveCategory(old(settings.categories), old(settings.editor), palette);
        if r.Some? then settings == old(settings).(categories := r.value, editor := old(settings.editor).(id := None))
        else settings == old(settings)
      ensures expenses == old(expenses)
    {
      var r := SaveCategory(settings.categories, settings.editor, palette);
      if r.Some? {
        settings := settings.(categories := r.value, editor := settings.editor.(id := None));
      }
    }

    /** `handleRestoreFinanceDefaults`: the settings are remembered for undo. */
    method RestoreDefaults()
      requires |palette| >= 10
      modifies this
      ensures snapshot == Some(old(settings)) && settings == RestoredSettings(old(settings), palette) && snackbarOpen
      ensures expenses == old(expenses)
    {
      snapshot := Some(settings);
      settings := RestoredSettings(settings, palette);
      snackbarOpen := true;
    }

    /** `handleUndoRestoreFinanceDefaults`: the remembered settings come back,
        which undoes the last restore exactly. */
    method UndoRestore()
      modifies this
      ensures old(snapshot).Some? ==> settings == old(snapshot).value
      ensures old(snapshot).None? ==> settings == old(settings)
      ensures snapshot == None && !snackbarOpen && expenses == old(expenses)
    {
      if snapshot.Some? {
        settings := snapshot.value;
      }
      snapshot := None;
      snackbarOpen := false;
    }
  }
}
