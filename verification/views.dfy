/**
 The list views of the directory page: `filteredTools` (the search, category
 filter and sort behind the "Explore AI Tools" grid) and `featuredTools` (the
 "Featured Tools" row). Each is a pure function of the catalog and the query
 state.
 */
module Views {
  import opened Seqs
  import opened StableSort
  import opened Text
  import opened Tools

  /**
   The filter of `filteredTools`: the lower-cased name or category contains the
   lower-cased search term, and the category is the selected one unless none is
   selected.
   */
  predicate Matches(q: QueryState, t: Tool) {
    && (Includes(ToLower(t.name), ToLower(q.searchTerm)) || Includes(ToLower(t.category), ToLower(q.searchTerm)))
    && (q.selectedCategory == "" || t.category == q.selectedCategory)
  }

  /** `Matches` as the callback handed to the filter. */
  function Matcher(q: QueryState): Tool -> bool {
    t => Matches(q, t)
  }

  /** The callback of `featuredTools`. */
  predicate IsFeatured(t: Tool) {
    t.featured
  }

  /** The sort callback of `filteredTools`, with the JavaScript sign convention. */
  function CompareTools(sortBy: string, a: Tool, b: Tool): int {
    if sortBy == "name" then StrCompare(a.name, b.name)
    else if sortBy == "popularity" then b.popularity - a.popularity
    else 0
  }

  /**
   What the callback's sign means: by name, two tools tie exactly when their
   names are equal and swapping them flips the sign; by popularity, the more
   popular tool sorts first and only equal popularities tie; any other choice
   ties everything.
   */
  lemma CompareToolsOrders(sortBy: string, a: Tool, b: Tool)
    ensures sortBy == "name" ==> (CompareTools(sortBy, a, b) == 0 <==> a.name == b.name)
    ensures CompareTools(sortBy, a, b) == -CompareTools(sortBy, b, a)
    ensures sortBy == "popularity" ==> (CompareTools(sortBy, a, b) < 0 <==> a.popularity > b.popularity)
    ensures sortBy == "popularity" ==> (CompareTools(sortBy, a, b) == 0 <==> a.popularity == b.popularity)
    ensures sortBy != "name" && sortBy != "popularity" ==> CompareTools(sortBy, a, b) == 0
  {
    StrCompareAntisymmetric(a.name, b.name);
  }

  function ToolOrder(sortBy: string): (Tool, Tool) -> int {
    (a, b) => CompareTools(sortBy, a, b)
  }

  /** Every sort choice yields a consistent comparator, so the sort's result is well defined. */
  lemma ToolOrderValid(sortBy: string)
    ensures ValidComparator(ToolOrder(sortBy))
  {
    var cmp := ToolOrder(sortBy);
    forall a, b ensures Antisymmetric(cmp, a, b) {
      StrCompareAntisymmetric(a.name, b.name);
    }
    forall a, b, c ensures Transitive(cmp, a, b, c) {
      if sortBy == "name" && StrCompare(a.name, b.name) <= 0 && StrCompare(b.name, c.name) <= 0 {
        StrCompareTransitive(a.name, b.name, c.name);
      }
    }
  }

  /** `filteredTools`: the matching tools, stably sorted by the chosen order. */
  function FilteredTools(tools: seq<Tool>, q: QueryState): (r: seq<Tool>)
    ensures forall t :: t in r <==> t in tools && Matches(q, t)
    ensures forall t :: multiset(r)[t] == if Matches(q, t) then multiset(tools)[t] else 0
    ensures |r| <= |tools|
    ensures Sorted(ToolOrder(q.sortBy), r)
  {
    ToolOrderValid(q.sortBy);
    var r := Sort(ToolOrder(q.sortBy), Filter(tools, Matcher(q)));
    SortedFilterContents(tools, Matcher(q), ToolOrder(q.sortBy), r);
    r
  }

  /** What a sorted arrangement of a filter holds: the accepted elements, as often as in the input. */
  lemma SortedFilterContents(tools: seq<Tool>, p: Tool -> bool, cmp: (Tool, Tool) -> int, r: seq<Tool>)
    requires multiset(r) == multiset(Filter(tools, p))
    ensures forall t :: t in r <==> t in tools && p(t)
    ensures forall t :: multiset(r)[t] == if p(t) then multiset(tools)[t] else 0
    ensures |r| <= |tools|
  {
    FilterMultiset(tools, p);
    assert |r| == |multiset(r)| == |Filter(tools, p)|;
  }

  /** Every listed tool sits at some position of the catalog and matches the query. */
  lemma ListedFromCatalog(tools: seq<Tool>, q: QueryState, t: Tool) returns (k: int)
    requires t in FilteredTools(tools, q)
    ensures 0 <= k < |tools| && tools[k] == t && Matches(q, t)
  {
    k :| 0 <= k < |tools| && tools[k] == t;
  }

  /** The result is a stable sort of the matching tools in catalog order. */
  lemma FilteredToolsStable(tools: seq<Tool>, q: QueryState)
    ensures ValidComparator(ToolOrder(q.sortBy))
    ensures Stable(ToolOrder(q.sortBy), Filter(tools, Matcher(q)), FilteredTools(tools, q))
  {
    ToolOrderValid(q.sortBy);
  }

  /** Two tools that the chosen order ties keep their catalog order. */
  lemma FilteredTiesKeepCatalogOrder(tools: seq<Tool>, q: QueryState, i: int, j: int)
    requires 0 <= i < j < |FilteredTools(tools, q)|
    requires CompareTools(q.sortBy, FilteredTools(tools, q)[i], FilteredTools(tools, q)[j]) == 0
    ensures OrderedIn(tools, FilteredTools(tools, q)[i], FilteredTools(tools, q)[j])
  {
    var r := FilteredTools(tools, q);
    FilteredToolsStable(tools, q);
    StableKeepsOrder(ToolOrder(q.sortBy), Filter(tools, Matcher(q)), r, i, j);
    FilterOrderedIn(tools, Matcher(q), r[i], r[j]);
  }

  /** Any two listed tools are in the chosen order. */
  lemma SortedPair(tools: seq<Tool>, q: QueryState, i: int, j: int)
    requires 0 <= i < j < |FilteredTools(tools, q)|
    ensures CompareTools(q.sortBy, FilteredTools(tools, q)[i], FilteredTools(tools, q)[j]) <= 0
  {
    var r := FilteredTools(tools, q);
    assert ToolOrder(q.sortBy)(r[i], r[j]) <= 0;
  }

  /** Sorting by popularity: most popular first, equally popular tools in catalog order. */
  lemma ByPopularity(tools: seq<Tool>, q: QueryState)
    requires q.sortBy == "popularity"
    ensures var r := FilteredTools(tools, q);
      forall i, j :: 0 <= i < j < |r| ==> r[i].popularity >= r[j].popularity
    ensures var r := FilteredTools(tools, q);
      forall i, j :: 0 <= i < j < |r| && r[i].popularity == r[j].popularity ==> OrderedIn(tools, r[i], r[j])
  {
    var r := FilteredTools(tools, q);
    forall i, j | 0 <= i < j < |r| ensures r[i].popularity >= r[j].popularity {
      SortedPair(tools, q, i, j);
    }
    forall i, j | 0 <= i < j < |r| && r[i].popularity == r[j].popularity
      ensures OrderedIn(tools, r[i], r[j])
    {
      EqualPopularityTies(q, r[i], r[j]);
      FilteredTiesKeepCatalogOrder(tools, q, i, j);
    }
  }

  /** The tie step of `ByPopularity`, kept apart so that proof stays small. */
  lemma EqualPopularityTies(q: QueryState, a: Tool, b: Tool)
    requires q.sortBy == "popularity" && a.popularity == b.popularity
    ensures CompareTools(q.sortBy, a, b) == 0
  {
  }

  /** Sorting by name: names in ascending ordinal order, tools of the same name in catalog order. */
  lemma ByName(tools: seq<Tool>, q: QueryState)
    requires q.sortBy == "name"
    ensures var r := FilteredTools(tools, q);
      forall i, j :: 0 <= i < j < |r| ==> StrCompare(r[i].name, r[j].name) <= 0
    ensures var r := FilteredTools(tools, q);
      forall i, j :: 0 <= i < j < |r| && r[i].name == r[j].name ==> OrderedIn(tools, r[i], r[j])
  {
    var r := FilteredTools(tools, q);
    forall i, j | 0 <= i < j < |r| ensures StrCompare(r[i].name, r[j].name) <= 0 {
      SortedPair(tools, q, i, j);
    }
    forall i, j | 0 <= i < j < |r| && r[i].name == r[j].name
      ensures OrderedIn(tools, r[i], r[j])
    {
      StrCompareAntisymmetric(r[i].name, r[j].name);
      FilteredTiesKeepCatalogOrder(tools, q, i, j);
    }
  }

  /** Any other sort choice leaves the matching tools in catalog order. */
  lemma OtherSortKeepsCatalogOrder(tools: seq<Tool>, q: QueryState)
    requires q.sortBy != "name" && q.sortBy != "popularity"
    ensures FilteredTools(tools, q) == Filter(tools, Matcher(q))
  {
    ToolOrderValid(q.sortBy);
    SortAllTiedIsIdentity(ToolOrder(q.sortBy), Filter(tools, Matcher(q)));
  }

  /** With an empty search box and "All" selected, every tool is listed, each exactly once per catalog entry. */
  lemma EmptyQueryListsAll(tools: seq<Tool>, sortBy: string)
    ensures multiset(FilteredTools(tools, QueryState("", "", sortBy))) == multiset(tools)
    ensures |FilteredTools(tools, QueryState("", "", sortBy))| == |tools|
  {
    var q := QueryState("", "", sortBy);
    forall i | 0 <= i < |tools| ensures Matches(q, tools[i]) {
      IncludesEmpty(ToLower(tools[i].name));
    }
    FilterAll(tools, Matcher(q));
    ToolOrderValid(sortBy);
  }

  /** The search ignores the case of the search term: typing it in upper case lists the same tools. */
  lemma SearchIgnoresCase(tools: seq<Tool>, q: QueryState)
    ensures FilteredTools(tools, q) == FilteredTools(tools, q.(searchTerm := ToLower(q.searchTerm)))
  {
    var q' := q.(searchTerm := ToLower(q.searchTerm));
    ToLowerIdempotent(q.searchTerm);
    FilterExtensional(tools, Matcher(q), Matcher(q'));
  }

  /** A catalog without repeated ids lists no tool twice, and no id twice. */
  lemma FilteredToolsUniqueIds(tools: seq<Tool>, q: QueryState)
    requires UniqueIds(tools)
    ensures Distinct(FilteredTools(tools, q))
    ensures UniqueIds(FilteredTools(tools, q))
  {
    var r := FilteredTools(tools, q);
    UniqueIdsDistinct(tools);
    assert multiset(r) <= multiset(tools);
    DistinctSubMultiset(tools, r);
    UniqueIdsOfSubset(tools, r);
  }

  /** `featuredTools`: the featured tools in catalog order. */
  function FeaturedTools(tools: seq<Tool>): (r: seq<Tool>)
    ensures forall t :: t in r <==> t in tools && t.featured
    ensures forall t :: multiset(r)[t] == if t.featured then multiset(tools)[t] else 0
    ensures forall i, j :: 0 <= i < j < |r| ==> OrderedIn(tools, r[i], r[j])
  {
    FilterMultiset(tools, IsFeatured);
    FilterMembership(tools, IsFeatured);
    FeaturedInCatalogOrder(tools);
    Filter(tools, IsFeatured)
  }

  /**
   For a catalog of distinct tools, the three facts `FeaturedTools` promises
   determine the featured row: any sequence meeting them is that row.
   */
  lemma FeaturedToolsDetermined(tools: seq<Tool>, r: seq<Tool>)
    requires UniqueIds(tools)
    requires forall t :: multiset(r)[t] == if t.featured then multiset(tools)[t] else 0
    requires forall i, j :: 0 <= i < j < |r| ==> OrderedIn(tools, r[i], r[j])
    ensures r == FeaturedTools(tools)
  {
    var f := FeaturedTools(tools);
    assert multiset(r) == multiset(f) by {
      forall t ensures multiset(r)[t] == multiset(f)[t] {
      }
    }
    UniqueIdsDistinct(tools);
    OrderedInDetermines(tools, r, f);
  }

  lemma FeaturedInCatalogOrder(tools: seq<Tool>)
    ensures forall i, j :: 0 <= i < j < |Filter(tools, IsFeatured)| ==>
      OrderedIn(tools, Filter(tools, IsFeatured)[i], Filter(tools, IsFeatured)[j])
  {
    var r := Filter(tools, IsFeatured);
    forall i, j | 0 <= i < j < |r| ensures OrderedIn(tools, r[i], r[j]) {
      FilterOrderedIn(tools, IsFeatured, r[i], r[j]);
    }
  }
}
