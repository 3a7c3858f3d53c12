/** The inventory list screen: the search, category filter and sort applied to the items
    it is given, and the list of categories offered in its category picker. */
module AllItems {
  import opened Base
  import opened Text
  import opened Seqs
  import opened Records
  import HomeScreen

  const Uncategorized: string := "Uncategorized"

  /** `item.category || 'Uncategorized'`: a missing or empty category is shown under a
      placeholder name, so a label is never empty. */
  function CategoryLabel(item: Item): (shown: string)
    ensures shown != []
    ensures shown != Uncategorized ==> item.category == Some(shown)
    ensures item.category.Some? && item.category.value != [] ==> shown == item.category.value
  {
    if item.category.Some? && item.category.value != [] then item.category.value else Uncategorized
  }

  function Labels(data: seq<Item>): (labels: seq<string>)
    ensures |labels| == |data|
    ensures forall i :: 0 <= i < |data| ==> labels[i] == CategoryLabel(data[i])
  {
    seq(|data|, i requires 0 <= i < |data| => CategoryLabel(data[i]))
  }

  /** `[...new Set(data.map(item => item.category || 'Uncategorized'))]`. */
  function UniqueCategories(data: seq<Item>): seq<string> {
    Dedup(Labels(data))
  }

  /** The picker lists every item's label once, nothing else, and in the order in which the
      labels first occur in the item list. */
  lemma UniqueCategoriesProperties(data: seq<Item>)
    ensures NoDuplicates(UniqueCategories(data))
    ensures forall i :: 0 <= i < |data| ==> CategoryLabel(data[i]) in UniqueCategories(data)
    ensures forall c :: c in UniqueCategories(data) ==> c in Labels(data) && c != []
    ensures forall i, j :: 0 <= i < j < |UniqueCategories(data)| ==>
              FirstIndex(Labels(data), UniqueCategories(data)[i]) < FirstIndex(Labels(data), UniqueCategories(data)[j])
  {
    var labels := Labels(data);
    DedupProperties(labels);
    forall i | 0 <= i < |data| ensures CategoryLabel(data[i]) in UniqueCategories(data) {
      assert labels[i] in labels;
    }
  }

  /** `item.name.toLowerCase().includes(searchTerm.toLowerCase())`. */
  predicate NameMatches(term: string, item: Item) {
    Contains(ToLower(item.name), ToLower(term))
  }

  /** `categoryFilter ? item.category === categoryFilter : true`: a missing or empty filter
      lets everything through. */
  predicate CategoryMatches(filter: Option<string>, item: Item) {
    filter.None? || filter.value == [] || item.category == Some(filter.value)
  }

  function SearchTest(term: string): Item -> bool {
    item => NameMatches(term, item)
  }

  function CategoryTest(filter: Option<string>): Item -> bool {
    item => CategoryMatches(filter, item)
  }

  /** The comparator passed to `sort`: names by `localeCompare`, stock by difference, and
      0 (every pair ties) for any other `sortBy`. */
  function Compare(sortBy: string, a: Item, b: Item): int {
    if sortBy == "name" then StrCompare(a.name, b.name)
    else if sortBy == "stock" then a.stock - b.stock
    else 0
  }

  lemma CompareAntisymmetric(sortBy: string, a: Item, b: Item)
    ensures Compare(sortBy, a, b) == -Compare(sortBy, b, a)
  {
    if sortBy == "name" {
      StrCompareAntisymmetric(a.name, b.name);
    }
  }

  lemma CompareTransitive(sortBy: string, a: Item, b: Item, c: Item)
    requires Compare(sortBy, a, b) <= 0 && Compare(sortBy, b, c) <= 0
    ensures Compare(sortBy, a, c) <= 0
  {
    if sortBy == "name" {
      StrCompareTransitive(a.name, b.name, c.name);
    }
  }

  /** Every earlier element compares at most equal to every later one. */
  predicate Sorted(sortBy: string, s: seq<Item>) {
    forall i, j :: 0 <= i < j < |s| ==> Compare(sortBy, s[i], s[j]) <= 0
  }

  /** Stable insertion: `x` goes after every element that does not compare greater. */
  function Insert(sortBy: string, sorted: seq<Item>, x: Item): (r: seq<Item>)
    ensures multiset(r) == multiset(sorted) + multiset{x}
  {
    if sorted == [] then [x]
    else if Compare(sortBy, sorted[|sorted| - 1], x) > 0 then
      assert sorted == sorted[..|sorted| - 1] + [sorted[|sorted| - 1]];
      Insert(sortBy, sorted[..|sorted| - 1], x) + [sorted[|sorted| - 1]]
    else sorted + [x]
  }

  /** `Array.prototype.sort` with the comparator, which is stable: a left-to-right
      insertion sort. */
  function SortItems(sortBy: string, s: seq<Item>): (r: seq<Item>)
    ensures multiset(r) == multiset(s)
  {
    if s == [] then []
    else
      assert s == s[..|s| - 1] + [s[|s| - 1]];
      Insert(sortBy, SortItems(sortBy, s[..|s| - 1]), s[|s| - 1])
  }

  lemma SortedAppend(sortBy: string, s: seq<Item>, y: Item)
    requires Sorted(sortBy, s)
    requires forall e :: e in s ==> Compare(sortBy, e, y) <= 0
    ensures Sorted(sortBy, s + [y])
  {
    var t := s + [y];
    forall i, j | 0 <= i < j < |t| ensures Compare(sortBy, t[i], t[j]) <= 0 {
      if j == |s| {
        assert t[i] in s;
      }
    }
  }

  lemma {:induction false} InsertSorted(sortBy: string, sorted: seq<Item>, x: Item)
    requires Sorted(sortBy, sorted)
    ensures Sorted(sortBy, Insert(sortBy, sorted, x))
  {
    if sorted != [] {
      var init, last := sorted[..|sorted| - 1], sorted[|sorted| - 1];
      assert forall e :: e in init ==> Compare(sortBy, e, last) <= 0 by {
        forall e | e in init ensures Compare(sortBy, e, last) <= 0 {
          var i :| 0 <= i < |init| && init[i] == e;
          assert sorted[i] == e;
        }
      }
      if Compare(sortBy, last, x) > 0 {
        assert Sorted(sortBy, init);
        InsertSorted(sortBy, init, x);
        var r0 := Insert(sortBy, init, x);
        forall e | e in r0 ensures Compare(sortBy, e, last) <= 0 {
          assert e in multiset(r0);
          if e != x {
            assert e in multiset(init);
          } else {
            CompareAntisymmetric(sortBy, last, x);
          }
        }
        SortedAppend(sortBy, r0, last);
      } else {
        forall e | e in sorted ensures Compare(sortBy, e, x) <= 0 {
          if e != last {
            assert e in init;
            CompareTransitive(sortBy, e, last, x);
          }
        }
        SortedAppend(sortBy, sorted, x);
      }
    }
  }

  lemma {:induction false} SortItemsSorted(sortBy: string, s: seq<Item>)
    ensures Sorted(sortBy, SortItems(sortBy, s))
  {
    if s != [] {
      SortItemsSorted(sortBy, s[..|s| - 1]);
      InsertSorted(sortBy, SortItems(sortBy, s[..|s| - 1]), s[|s| - 1]);
    }
  }

  /** With a comparator that ties every pair the sort leaves the list as it was. */
  lemma {:induction false} SortItemsOfTies(sortBy: string, s: seq<Item>)
    requires sortBy != "name" && sortBy != "stock"
    ensures SortItems(sortBy, s) == s
  {
    if s != [] {
      SortItemsOfTies(sortBy, s[..|s| - 1]);
      assert s == s[..|s| - 1] + [s[|s| - 1]];
    }
  }

  /** The items that pass the search and the category filter, in catalog order. */
  function Matching(data: seq<Item>, term: string, filter: Option<string>): seq<Item> {
    Filter(Filter(data, SearchTest(term)), CategoryTest(filter))
  }

  /** `filteredItems`: the filter/filter/sort chain. */
  function FilteredItems(data: seq<Item>, term: string, filter: Option<string>, sortBy: string): seq<Item> {
    SortItems(sortBy, Matching(data, term, filter))
  }

  /** The shown list holds each item of `data` that matches the search and the category
      filter exactly as often as `data` does, and nothing else: a permutation of the
      matching items. */
  lemma FilteredItemsContents(data: seq<Item>, term: string, filter: Option<string>, sortBy: string)
    ensures forall x :: multiset(FilteredItems(data, term, filter, sortBy))[x] ==
              if NameMatches(term, x) && CategoryMatches(filter, x) then multiset(data)[x] else 0
    ensures forall x :: x in FilteredItems(data, term, filter, sortBy) <==>
              x in data && NameMatches(term, x) && CategoryMatches(filter, x)
  {
    var searched := Filter(data, SearchTest(term));
    FilterMultiset(data, SearchTest(term));
    FilterMultiset(searched, CategoryTest(filter));
    var r := FilteredItems(data, term, filter, sortBy);
    forall x ensures x in r <==> x in data && NameMatches(term, x) && CategoryMatches(filter, x) {
      assert x in r <==> x in multiset(r);
      assert x in data <==> x in multiset(data);
    }
  }

  /** Every shown name contains the search term, ignoring ASCII case. */
  lemma FilteredItemsMatchSearch(data: seq<Item>, term: string, filter: Option<string>, sortBy: string)
    ensures forall x :: x in FilteredItems(data, term, filter, sortBy) ==>
              exists i :: OccursAt(ToLower(x.name), ToLower(term), i)
  {
    FilteredItemsContents(data, term, filter, sortBy);
    forall x | x in FilteredItems(data, term, filter, sortBy)
      ensures exists i :: OccursAt(ToLower(x.name), ToLower(term), i)
    {
      ContainsIffOccurs(ToLower(x.name), ToLower(term));
    }
  }

  /** An empty search term lets every item through. */
  lemma EmptySearchKeepsAll(data: seq<Item>)
    ensures Filter(data, SearchTest([])) == data
  {
    forall x | x in data ensures SearchTest([])(x) {
      ContainsEmpty(ToLower(x.name));
    }
    FilterKeepsAll(data, SearchTest([]));
  }

  /** With a category picked, only items stored with exactly that category are shown. */
  lemma CategoryFilterIsExact(data: seq<Item>, term: string, c: string, sortBy: string)
    requires c != []
    ensures forall x :: x in FilteredItems(data, term, Some(c), sortBy) ==> x.category == Some(c)
  {
    FilteredItemsContents(data, term, Some(c), sortBy);
  }

  /** Sorting by stock lists the stock counts in non-decreasing order. */
  lemma SortByStockOrdered(data: seq<Item>, term: string, filter: Option<string>)
    ensures forall i, j :: 0 <= i < j < |FilteredItems(data, term, filter, "stock")| ==>
              FilteredItems(data, term, filter, "stock")[i].stock <= FilteredItems(data, term, filter, "stock")[j].stock
  {
    SortItemsSorted("stock", Matching(data, term, filter));
  }

  /** Sorting by name lists the names in non-decreasing order. */
  lemma SortByNameOrdered(data: seq<Item>, term: string, filter: Option<string>)
    ensures forall i, j :: 0 <= i < j < |FilteredItems(data, term, filter, "name")| ==>
              StrCompare(FilteredItems(data, term, filter, "name")[i].name, FilteredItems(data, term, filter, "name")[j].name) <= 0
  {
    SortItemsSorted("name", Matching(data, term, filter));
  }

  /** Any other `sortBy`, such as the `''` a category pick sets, keeps catalog order. */
  lemma OtherSortKeepsOrder(data: seq<Item>, term: string, filter: Option<string>, sortBy: string)
    requires sortBy != "name" && sortBy != "stock"
    ensures FilteredItems(data, term, filter, sortBy) == Matching(data, term, filter)
  {
    SortItemsOfTies(sortBy, Matching(data, term, filter));
  }

  /** `item.stock < minQty ? '#ffcccc' : '#D7F6BFFF'`. */
  function RowHighlighted(item: Item, minQty: Option<int>): (low: bool)
    ensures low <==> minQty.Some? && item.stock < minQty.value
  {
    IsLowStock(item, minQty)
  }

  /** A catalog row is drawn as low exactly when the item is listed on the Low Stock tab,
      so every row of that tab is drawn as low. */
  lemma RowHighlightedInLowStockTab(data: seq<Item>, minQty: Option<int>)
    ensures forall i :: 0 <= i < |data| ==>
              (RowHighlighted(data[i], minQty) <==> data[i] in HomeScreen.LowStockView(data, minQty))
    ensures forall x :: x in HomeScreen.LowStockView(data, minQty) ==> RowHighlighted(x, minQty)
  {
    HomeScreen.LowStockViewContents(data, minQty);
  }

  /** Picking the placeholder label filters on the literal string, so items without a
      category, which are the ones listed under it, are never shown. */
  lemma UncategorizedPickHidesUncategorized(data: seq<Item>, term: string, sortBy: string)
    ensures forall x :: x in FilteredItems(data, term, Some(Uncategorized), sortBy) ==>
              x.category == Some(Uncategorized)
  {
    CategoryFilterIsExact(data, term, Uncategorized, sortBy);
  }

  /** One rice item with no category: the picker offers 'Uncategorized', and picking it
      shows an empty list. */
  lemma UncategorizedPickShowsNothing()
    ensures var data := [Item("1", "Rice", 5, "kg", None, None)];
            Uncategorized in UniqueCategories(data) && FilteredItems(data, "", Some(Uncategorized), "") == []
  {
    var data := [Item("1", "Rice", 5, "kg", None, None)];
    UniqueCategoriesProperties(data);
    assert CategoryLabel(data[0]) == Uncategorized;
    var r := FilteredItems(data, "", Some(Uncategorized), "");
    FilteredItemsContents(data, "", Some(Uncategorized), "");
    assert multiset(r) == multiset{};
  }

  /** The filter the picker evidently intends: an item matches a picked label when its
      own label is that label. */
  predicate LabelMatches(filter: Option<string>, item: Item) {
    filter.None? || filter.value == [] || CategoryLabel(item) == filter.value
  }

  function LabelTest(filter: Option<string>): Item -> bool {
    item => LabelMatches(filter, item)
  }

  /** `filteredItems` with the corrected category filter. */
  function FilteredItemsByLabel(data: seq<Item>, term: string, filter: Option<string>, sortBy: string): seq<Item> {
    SortItems(sortBy, Filter(Filter(data, SearchTest(term)), LabelTest(filter)))
  }

  /** With an empty search, the corrected list holds exactly the items whose label passes
      the filter. */
  lemma ByLabelOfEmptySearch(data: seq<Item>, filter: Option<string>, sortBy: string)
    ensures forall x :: x in FilteredItemsByLabel(data, [], filter, sortBy) <==> x in data && LabelMatches(filter, x)
  {
    EmptySearchKeepsAll(data);
    var kept := Filter(data, LabelTest(filter));
    FilterMembership(data, LabelTest(filter));
    var r := FilteredItemsByLabel(data, [], filter, sortBy);
    assert r == SortItems(sortBy, kept);
    forall x ensures x in r <==> x in kept {
      assert x in r <==> x in multiset(r);
      assert x in kept <==> x in multiset(kept);
    }
  }

  /** With the corrected filter, every label the picker offers shows exactly the items
      listed under it (with an empty search), and at least one of them. */
  lemma EveryOfferedCategoryMatches(data: seq<Item>, c: string, sortBy: string)
    requires c in UniqueCategories(data)
    ensures forall x :: x in FilteredItemsByLabel(data, [], Some(c), sortBy) <==> x in data && CategoryLabel(x) == c
    ensures FilteredItemsByLabel(data, [], Some(c), sortBy) != []
  {
    UniqueCategoriesProperties(data);
    ByLabelOfEmptySearch(data, Some(c), sortBy);
    var i :| 0 <= i < |data| && Labels(data)[i] == c;
    assert data[i] in data;
  }

  /** For every label other than the placeholder the correction changes nothing. */
  lemma ByLabelAgreesOnNamedCategories(data: seq<Item>, term: string, filter: Option<string>, sortBy: string)
    requires filter.None? || filter.value != Uncategorized
    ensures FilteredItemsByLabel(data, term, filter, sortBy) == FilteredItems(data, term, filter, sortBy)
  {
    var searched := Filter(data, SearchTest(term));
    SameFilter(searched, LabelTest(filter), CategoryTest(filter));
  }

  lemma {:induction false} SameFilter(s: seq<Item>, p: Item -> bool, q: Item -> bool)
    requires forall x :: p(x) == q(x)
    ensures Filter(s, p) == Filter(s, q)
  {
    if s != [] {
      SameFilter(s[..|s| - 1], p, q);
    }
  }

  /** The list screen's own state: the search term, the sort key and the picked category. */
  datatype ViewState = ViewState(term: string, sortBy: string, filter: Option<string>)

  /** On first render: no search, sorted by name, no category. */
  const InitialView := ViewState("", "name", None)

  /** The Name and Stock buttons set the sort key and clear the category. */
  function PressSort(v: ViewState, key: string): (w: ViewState)
    ensures w.term == v.term && w.sortBy == key && w.filter.None?
  {
    ViewState(v.term, key, None)
  }

  /** Picking a category sets it and clears the sort key. */
  function PickCategory(v: ViewState, c: string): (w: ViewState)
    ensures w.term == v.term && w.sortBy == [] && w.filter == Some(c)
  {
    ViewState(v.term, "", Some(c))
  }

  /** The picker's clear option drops the category and keeps the search and the sort key. */
  function ClearCategory(v: ViewState): (w: ViewState)
    ensures w.term == v.term && w.sortBy == v.sortBy && w.filter.None?
  {
    ViewState(v.term, v.sortBy, None)
  }

  /** The list the screen shows, with the corrected category filter. */
  function Shown(data: seq<Item>, v: ViewState): seq<Item> {
    FilteredItemsByLabel(data, v.term, v.filter, v.sortBy)
  }

  /** With no search, picking an offered category shows exactly the items listed under that
      label, in catalog order. */
  lemma PickedCategoryShown(data: seq<Item>, v: ViewState, c: string)
    requires v.term == [] && c in UniqueCategories(data)
    ensures Shown(data, PickCategory(v, c)) == Filter(data, LabelTest(Some(c)))
    ensures Shown(data, PickCategory(v, c)) != []
  {
    EveryOfferedCategoryMatches(data, c, "");
    EmptySearchKeepsAll(data);
    SortItemsOfTies("", Filter(data, LabelTest(Some(c))));
  }

  /** Pressing a sort button shows every item that matches the search, in sorted order. */
  lemma PressSortShowsAllMatches(data: seq<Item>, v: ViewState, key: string)
    ensures forall x :: x in Shown(data, PressSort(v, key)) <==> x in data && NameMatches(v.term, x)
    ensures Sorted(key, Shown(data, PressSort(v, key)))
  {
    var w := PressSort(v, key);
    var searched := Filter(data, SearchTest(v.term));
    FilterKeepsAll(searched, LabelTest(None));
    FilterMembership(data, SearchTest(v.term));
    SortItemsSorted(key, searched);
    var r := Shown(data, w);
    forall x ensures x in r <==> x in searched {
      assert x in r <==> x in multiset(r);
      assert x in searched <==> x in multiset(searched);
    }
  }

  /** Clearing a picked category shows every item that matches the search, in catalog
      order, since the pick left no sort key. */
  lemma ClearAfterPickShowsSearch(data: seq<Item>, v: ViewState, c: string)
    ensures Shown(data, ClearCategory(PickCategory(v, c))) == Filter(data, SearchTest(v.term))
    ensures forall x :: x in Shown(data, ClearCategory(PickCategory(v, c))) <==> x in data && NameMatches(v.term, x)
  {
    var searched := Filter(data, SearchTest(v.term));
    FilterKeepsAll(searched, LabelTest(None));
    SortItemsOfTies("", searched);
    FilterMembership(data, SearchTest(v.term));
  }
}
