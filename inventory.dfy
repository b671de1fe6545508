/**
 * The inventory page (frontend/js/inventory.js): a module-level list of
 * products, the status filter and search box that decide which rows the
 * table shows, and the add / edit / delete handlers that change the list in
 * place. Prices are carried along untouched; the table markup is reduced to
 * the rows it lists.
 */
module Inventory {
  import opened Text

  /**
   * A product id as the page computes it. Ids are JavaScript numbers; the
   * only non-integer one the page can produce is `-Infinity`, which is
   * `Math.max()` of no ids at all (plus one).
   */
  datatype ItemId = Id(n: int) | NegInfinity

  /** The product record. */
  datatype Item = Item(
    id: ItemId, name: string, sku: string, category: string,
    stock: int, minStock: int, price: real, icon: string)

  /** The values read from the product form by the save handler. */
  datatype ProductForm = ProductForm(
    name: string, sku: string, category: string, stock: int, minStock: int, price: real)

  /** The icon every saved product gets: U+1F4E6 PACKAGE. */
  const SavedIcon: string := "\U{1F4E6}"

  /** The eight products the page starts with. */
  const SampleData: seq<Item> := [
    Item(Id(1), "Heavy Duty Hammer", "HDW-001", "Tools", 45, 10, 24.99, "\U{1F528}"),
    Item(Id(2), "Power Drill Set", "HDW-002", "Tools", 12, 5, 89.99, "\U{1F527}"),
    Item(Id(3), "Safety Goggles", "SAF-001", "Safety", 3, 15, 12.50, "\U{1F97D}"),
    Item(Id(4), "Construction Nails (5kg)", "HDW-003", "Hardware", 28, 20, 15.75, "\U{1F4CC}"),
    Item(Id(5), "Paint Roller Set", "CNS-001", "Construction", 1, 8, 18.99, "\U{1F3A8}"),
    Item(Id(6), "Extension Cord 50ft", "ELC-001", "Electrical", 22, 10, 32.50, "\U{1F50C}"),
    Item(Id(7), "Measuring Tape", "TOL-001", "Tools", 35, 15, 9.99, "\U{1F4CF}"),
    Item(Id(8), "Work Gloves", "SAF-002", "Safety", 0, 20, 8.50, "\U{1F9E4}")
  ]

  // ---------------------------------------------------------------------
  // Order-preserving filtering
  // ---------------------------------------------------------------------

  /** `a` is `b` with some elements left out and the rest in their order. */
  predicate IsSubsequence<T(==)>(a: seq<T>, b: seq<T>)
    decreases |b|
  {
    if a == [] then true
    else if b == [] then false
    else if a[0] == b[0] then IsSubsequence(a[1..], b[1..])
    else IsSubsequence(a, b[1..])
  }

  /** `Array.prototype.filter`. */
  function FilterSeq<T(!new)>(s: seq<T>, keep: T -> bool): (r: seq<T>)
    ensures |r| <= |s|
    ensures forall i | 0 <= i < |r| :: r[i] in s && keep(r[i])
    ensures forall i | 0 <= i < |s| :: keep(s[i]) ==> s[i] in r
    ensures forall x :: multiset(r)[x] == if keep(x) then multiset(s)[x] else 0
  {
    if s == [] then []
    else
      var rest := FilterSeq(s[1..], keep);
      assert forall i | 1 <= i < |s| :: s[i] == s[1..][i - 1];
      assert s == [s[0]] + s[1..];
      if keep(s[0]) then [s[0]] + rest else rest
  }

  /** A subsequence stays one when another element is put in front of the whole. */
  lemma {:induction false} SubsequenceOfCons<T>(a: seq<T>, x: T, b: seq<T>)
    requires IsSubsequence(a, b)
    ensures IsSubsequence(a, [x] + b)
    decreases |b|, 1
  {
    assert ([x] + b)[1..] == b;
    if a != [] && a[0] == x {
      SubsequenceDropHead(a, b);
    }
  }

  /** Leaving out the first element of a subsequence leaves a subsequence. */
  lemma {:induction false} SubsequenceDropHead<T>(a: seq<T>, b: seq<T>)
    requires a != [] && IsSubsequence(a, b)
    ensures IsSubsequence(a[1..], b)
    decreases |b|, 0
  {
    assert [b[0]] + b[1..] == b;
    if a[0] == b[0] {
      SubsequenceOfCons(a[1..], b[0], b[1..]);
    } else {
      SubsequenceDropHead(a, b[1..]);
      SubsequenceOfCons(a[1..], b[0], b[1..]);
    }
  }

  /** Filtering keeps the survivors in their original order. */
  lemma {:induction false} FilterIsSubsequence<T(!new)>(s: seq<T>, keep: T -> bool)
    ensures IsSubsequence(FilterSeq(s, keep), s)
  {
    if s != [] {
      FilterIsSubsequence(s[1..], keep);
      var rest := FilterSeq(s[1..], keep);
      if keep(s[0]) {
        assert ([s[0]] + rest)[1..] == rest;
      } else {
        SubsequenceOfCons(rest, s[0], s[1..]);
        assert [s[0]] + s[1..] == s;
      }
    }
  }

  // ---------------------------------------------------------------------
  // Stock status and the row filter of renderInventory
  // ---------------------------------------------------------------------

  /** The badge class of a row: `critical`, `low` or `good`. */
  datatype StockStatus = Critical | Low | Good

  /** The badge class of an item. */
  function StatusOf(item: Item): (s: StockStatus)
    ensures s == Critical <==> item.stock == 0
    ensures s == Low <==> item.stock != 0 && item.stock < item.minStock
    ensures s == Good <==> item.stock != 0 && item.stock >= item.minStock
  {
    if item.stock == 0 then Critical else if item.stock < item.minStock then Low else Good
  }

  /** The badge text that goes with each class. */
  function StatusText(s: StockStatus): string
  {
    match s
    case Critical => "Out of Stock"
    case Low => "Low Stock"
    case Good => "In Stock"
  }

  /**
   * The search part of the filter; `term` is the search box value already
   * lower-cased.
   */
  predicate MatchesSearch(item: Item, term: string)
  {
    Contains(ToLower(item.name), term) || Contains(ToLower(item.sku), term)
  }

  /** The filter callback of renderInventory for the current filter name. */
  predicate Keep(item: Item, term: string, filter: string)
  {
    var matches := MatchesSearch(item, term);
    if filter == "all" then matches
    else if filter == "low" then matches && item.stock < item.minStock && item.stock > 0
    else if filter == "critical" then matches && item.stock == 0
    else matches
  }

  /**
   * The items renderInventory lists: every item the filter keeps, as often
   * as it occurs in the list, in list order.
   */
  function FilterItems(items: seq<Item>, term: string, filter: string): (r: seq<Item>)
    ensures forall i | 0 <= i < |r| :: Keep(r[i], term, filter)
    ensures forall x :: multiset(r)[x] == if Keep(x, term, filter) then multiset(items)[x] else 0
    ensures IsSubsequence(r, items)
  {
    FilterIsSubsequence(items, (x: Item) => Keep(x, term, filter));
    FilterSeq(items, (x: Item) => Keep(x, term, filter))
  }

  /** One table row: the item, its badge class and the badge text. */
  datatype Row = Row(item: Item, status: StockStatus, text: string)

  /** The rows renderInventory writes into the table body: one per listed item, in order, with its badge. */
  function RenderRows(items: seq<Item>, search: string, filter: string): (rows: seq<Row>)
    ensures |rows| == |FilterItems(items, ToLower(search), filter)|
    ensures forall i | 0 <= i < |rows| ::
      var item := FilterItems(items, ToLower(search), filter)[i];
      rows[i] == Row(item, StatusOf(item), StatusText(StatusOf(item)))
  {
    var shown := FilterItems(items, ToLower(search), filter);
    seq(|shown|, i requires 0 <= i < |shown| => Row(shown[i], StatusOf(shown[i]), StatusText(StatusOf(shown[i]))))
  }

  /**
   * Every row is a listed item the filter keeps, with its badge and its text, and every
   * kept item has a row.
   */
  lemma RenderedRowsAreKeptItems(items: seq<Item>, search: string, filter: string)
    ensures var rows := RenderRows(items, search, filter);
      && (forall i | 0 <= i < |rows| ::
            rows[i].item in items && Keep(rows[i].item, ToLower(search), filter) && rows[i].status == StatusOf(rows[i].item)
            && rows[i].text == StatusText(rows[i].status))
      && (forall i | 0 <= i < |items| :: Keep(items[i], ToLower(search), filter) ==>
            exists j | 0 <= j < |rows| :: rows[j].item == items[i])
  {
    var shown := FilterItems(items, ToLower(search), filter);
    var rows := RenderRows(items, search, filter);
    forall i | 0 <= i < |rows| ensures rows[i].item in items {
      assert multiset(shown)[shown[i]] > 0;
    }
    forall i | 0 <= i < |items| && Keep(items[i], ToLower(search), filter)
      ensures exists j | 0 <= j < |rows| :: rows[j].item == items[i]
    {
      assert multiset(items)[items[i]] > 0;
      assert items[i] in multiset(shown);
      var j :| 0 <= j < |shown| && shown[j] == items[i];
      assert rows[j].item == items[i];
    }
  }

  /** An empty search term matches every item. */
  lemma EmptySearchMatchesAll(item: Item)
    ensures MatchesSearch(item, "")
  {
    ContainsEmpty(ToLower(item.name));
  }

  /** The search ignores ASCII case: a term found in the name in any case is matched. */
  lemma SearchIgnoresCase(item: Item, term: string)
    requires Contains(item.name, term) || Contains(item.sku, term)
    ensures MatchesSearch(item, ToLower(term))
  {
    if Contains(item.name, term) { ContainsLower(item.name, term); }
    else { ContainsLower(item.sku, term); }
  }

  /**
   * The `low` filter keeps the matching items whose badge is `low` and whose
   * stock is positive, so a negative stock, badged `low`, is not listed.
   */
  lemma LowFilterIsLowBadge(item: Item, term: string)
    ensures Keep(item, term, "low") <==> MatchesSearch(item, term) && StatusOf(item) == Low && item.stock > 0
  {
  }

  /** The `critical` filter keeps exactly the matching items badged `critical`. */
  lemma CriticalFilterIsCriticalBadge(item: Item, term: string)
    ensures Keep(item, term, "critical") <==> MatchesSearch(item, term) && StatusOf(item) == Critical
  {
  }

  /** `all` and every unknown filter name keep exactly the matching items. */
  lemma OtherFiltersKeepMatches(item: Item, term: string, filter: string)
    requires filter != "low" && filter != "critical"
    ensures Keep(item, term, filter) <==> MatchesSearch(item, term)
  {
  }

  // ---------------------------------------------------------------------
  // Ids, add, edit, delete
  // ---------------------------------------------------------------------

  /** `<` on the ids the page can produce; `-Infinity` is below every integer. */
  predicate IdBelow(a: ItemId, b: ItemId)
  {
    match (a, b)
    case (NegInfinity, Id(_)) => true
    case (Id(x), Id(y)) => x < y
    case _ => false
  }

  /** `Math.max(...items.map(p => p.id))` */
  function MaxId(items: seq<Item>): (m: ItemId)
    ensures items == [] ==> m == NegInfinity
    ensures items != [] ==> exists i | 0 <= i < |items| :: items[i].id == m
    ensures forall i | 0 <= i < |items| :: items[i].id == m || IdBelow(items[i].id, m)
  {
    if items == [] then NegInfinity
    else
      var rest := MaxId(items[1..]);
      assert forall i | 1 <= i < |items| :: items[i] == items[1..][i - 1];
      if IdBelow(items[0].id, rest) then rest else items[0].id
  }

  /** `Math.max(...ids) + 1`; `-Infinity + 1` stays `-Infinity`. */
  function NextId(items: seq<Item>): ItemId
  {
    match MaxId(items)
    case Id(n) => Id(n + 1)
    case NegInfinity => NegInfinity
  }

  /** No two items share an id. */
  predicate DistinctIds(items: seq<Item>)
  {
    forall i, j | 0 <= i < j < |items| :: items[i].id != items[j].id
  }

  /** The item the add branch appends. */
  function NewItem(id: ItemId, form: ProductForm): Item
  {
    Item(id, form.name, form.sku, form.category, form.stock, form.minStock, form.price, SavedIcon)
  }

  /** `{ ...old, ...productData }`: the id survives, every other field is overwritten. */
  function Merge(current: Item, form: ProductForm): (r: Item)
    ensures r == NewItem(current.id, form)
  {
    current.(name := form.name, sku := form.sku, category := form.category, stock := form.stock,
         minStock := form.minStock, price := form.price, icon := SavedIcon)
  }

  /**
   * As soon as one id is an integer, the next id is an integer above every
   * id in the list, so appending with it keeps ids distinct.
   */
  lemma NextIdIsFresh(items: seq<Item>)
    requires exists i | 0 <= i < |items| :: items[i].id.Id?
    ensures NextId(items).Id?
    ensures forall i | 0 <= i < |items| :: IdBelow(items[i].id, NextId(items))
  {
    var k :| 0 <= k < |items| && items[k].id.Id?;
    assert items[k].id == MaxId(items) || IdBelow(items[k].id, MaxId(items));
  }

  /** Appending with the next id keeps ids distinct while some id is an integer. */
  lemma AddKeepsIdsDistinct(items: seq<Item>, form: ProductForm)
    requires DistinctIds(items)
    requires exists i | 0 <= i < |items| :: items[i].id.Id?
    ensures DistinctIds(items + [NewItem(NextId(items), form)])
  {
    NextIdIsFresh(items);
    var s := items + [NewItem(NextId(items), form)];
    forall i, j | 0 <= i < j < |s| ensures s[i].id != s[j].id {
      if j == |items| {
        assert IdBelow(items[i].id, NextId(items));
      }
    }
  }

  /** Once the list is empty, two adds in a row produce two items with id `-Infinity`. */
  lemma AddToEmptyRepeatsId(a: ProductForm, b: ProductForm)
    ensures var once := [NewItem(NextId([]), a)];
      var twice := once + [NewItem(NextId(once), b)];
      twice[0].id == twice[1].id == NegInfinity && !DistinctIds(twice)
  {
    var once := [NewItem(NextId([]), a)];
    assert MaxId(once) == NegInfinity;
  }

  /** `findIndex(p => p.id === id)`: the first position holding `id`, or -1. */
  function FindIndex(items: seq<Item>, id: ItemId): (k: int)
    ensures -1 <= k < |items|
    ensures k == -1 <==> forall i | 0 <= i < |items| :: items[i].id != id
    ensures k >= 0 ==> items[k].id == id && forall i | 0 <= i < k :: items[i].id != id
  {
    if items == [] then -1
    else if items[0].id == id then 0
    else
      var k := FindIndex(items[1..], id);
      assert forall i | 1 <= i < |items| :: items[i] == items[1..][i - 1];
      if k == -1 then -1 else k + 1
  }

  /** `inventoryData.filter(p => p.id !== id)` */
  function RemoveId(items: seq<Item>, id: ItemId): (r: seq<Item>)
    ensures forall i | 0 <= i < |r| :: r[i].id != id && r[i] in items
    ensures forall i | 0 <= i < |items| :: items[i].id != id ==> items[i] in r
    ensures forall x :: multiset(r)[x] == if x.id != id then multiset(items)[x] else 0
    ensures IsSubsequence(r, items)
  {
    FilterIsSubsequence(items, (p: Item) => p.id != id);
    FilterSeq(items, (p: Item) => p.id != id)
  }

  /**
   * The list after a valid save: in edit mode the first item with the edited
   * id is merged with the form (none found: the list is unchanged); otherwise a
   * new item with the next id is appended.
   */
  function SavedItems(items: seq<Item>, editingId: Option<ItemId>, form: ProductForm): (r: seq<Item>)
    ensures IsEditing(editingId) ==>
      var k := FindIndex(items, editingId.value);
      r == if k == -1 then items else items[k := Merge(items[k], form)]
    ensures !IsEditing(editingId) ==> r == items + [NewItem(NextId(items), form)]
  {
    if IsEditing(editingId) then
      var index := FindIndex(items, editingId.value);
      if index != -1 then items[index := Merge(items[index], form)] else items
    else
      items + [NewItem(NextId(items), form)]
  }

  /** JavaScript truthiness of `editingId`: `null` and `0` are false. */
  predicate IsEditing(editingId: Option<ItemId>)
  {
    editingId.Some? && editingId.value != Id(0)
  }

  /** The page state: the module-level variables and the parts of the DOM the handlers write. */
  class InventoryPage {
    var items: seq<Item>
    var currentFilter: string
    var editingId: Option<ItemId>
    var search: string
    var modalOpen: bool
    var modalTitle: string
    var tableRows: seq<Row>

    /**
      * Script load: the sample data, filter `all`, nothing being edited and an
      * empty table body; the `DOMContentLoaded` handler then calls Render.
      */
    constructor ()
      ensures items == SampleData && currentFilter == "all" && editingId == None
      ensures search == "" && !modalOpen && modalTitle == ""
      ensures tableRows == []
    {
      items := SampleData;
      currentFilter := "all";
      editingId := None;
      search := "";
      modalOpen := false;
      modalTitle := "";
      tableRows := [];
    }

    /** renderInventory: redraws the table from the list, the search box and the filter. */
    method Render()
      modifies this`tableRows
      ensures tableRows == RenderRows(items, search, currentFilter)
    {
      tableRows := RenderRows(items, search, currentFilter);
    }

    /** A filter button click: the button's `data-filter` becomes the filter. */
    method SelectFilter(filter: string)
      modifies this`currentFilter, this`tableRows
      ensures currentFilter == filter
      ensures tableRows == RenderRows(items, search, filter)
    {
      currentFilter := filter;
      Render();
    }

    /** Typing in the search box. */
    method TypeSearch(text: string)
      modifies this`search, this`tableRows
      ensures search == text
      ensures tableRows == RenderRows(items, text, currentFilter)
    {
      search := text;
      Render();
    }

    /** The add button: leaves edit mode and opens the modal. */
    method OpenAddModal()
      modifies this`editingId, this`modalTitle, this`modalOpen
      ensures editingId == None && modalTitle == "Add New Product" && modalOpen
    {
      editingId := None;
      modalTitle := "Add New Product";
      modalOpen := true;
    }

    /** The close button, the cancel button or a click on the backdrop. */
    method CloseModal()
      modifies this`modalOpen
      ensures !modalOpen
    {
      modalOpen := false;
    }

    /**
     * The save button. An invalid form changes nothing. Otherwise, in edit
     * mode the first item with the edited id is overwritten (if it is still
     * there), else a new item with the next id is appended; then the modal
     * closes and the table is redrawn. `editingId` is left as it was.
     */
    method Save(formValid: bool, form: ProductForm)
      modifies this`items, this`modalOpen, this`tableRows
      ensures !formValid ==> items == old(items) && modalOpen == old(modalOpen) && tableRows == old(tableRows)
      ensures formValid && IsEditing(editingId) ==>
        var k := FindIndex(old(items), editingId.value);
        items == if k == -1 then old(items) else old(items)[k := Merge(old(items)[k], form)]
      ensures formValid && !IsEditing(editingId) ==>
        items == old(items) + [NewItem(NextId(old(items)), form)]
      ensures formValid ==> !modalOpen && tableRows == RenderRows(items, search, currentFilter)
    {
      if !formValid {
        return;
      }
      items := SavedItems(items, editingId, form);
      modalOpen := false;
      Render();
    }

    /** editProduct: an unknown id changes nothing; a known one enters edit mode. */
    method EditProduct(id: ItemId)
      modifies this`editingId, this`modalTitle, this`modalOpen
      ensures FindIndex(items, id) == -1 ==>
        editingId == old(editingId) && modalTitle == old(modalTitle) && modalOpen == old(modalOpen)
      ensures FindIndex(items, id) != -1 ==>
        editingId == Some(id) && modalTitle == "Edit Product" && modalOpen
    {
      if FindIndex(items, id) == -1 {
        return;
      }
      editingId := Some(id);
      modalTitle := "Edit Product";
      modalOpen := true;
    }

    /** deleteProduct: after confirmation, every item with the id goes. */
    method DeleteProduct(id: ItemId, confirmed: bool)
      modifies this`items, this`tableRows
      ensures !confirmed ==> items == old(items) && tableRows == old(tableRows)
      ensures confirmed ==> items == RemoveId(old(items), id)
      ensures confirmed ==> tableRows == RenderRows(items, search, currentFilter)
    {
      if confirmed {
        items := RemoveId(items, id);
        Render();
      }
    }
  }
}
