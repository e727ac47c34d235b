/**
 The records the directory works on: one catalog entry per AI tool, and the
 query state the page holds (search box, selected category, sort choice).
 */
module Tools {

  /** One catalog entry. `image` and `link` are opaque strings that nothing here interprets. */
  datatype Tool = Tool(
    id: int,
    name: string,
    category: string,
    description: string,
    image: string,
    featured: bool,
    popularity: int,
    link: string
  )

  /**
   What the page's three pieces of state hold. An empty `selectedCategory`
   means "All"; `sortBy` is a free string, because only "name" and
   "popularity" have a meaning and every other value leaves the order alone.
   */
  datatype QueryState = QueryState(searchTerm: string, selectedCategory: string, sortBy: string)

  /** No two tools share an id (the page uses ids as element keys). */
  ghost predicate UniqueIds(tools: seq<Tool>) {
    forall i, j :: 0 <= i < j < |tools| ==> tools[i].id != tools[j].id
  }

  /** Unique ids identify tools: equal ids mean the same catalog position. */
  lemma UniqueIdsDistinct(tools: seq<Tool>)
    requires UniqueIds(tools)
    ensures forall i, j :: 0 <= i < j < |tools| ==> tools[i] != tools[j]
  {
  }

  /** Distinct tools drawn from a catalog with unique ids have unique ids. */
  lemma UniqueIdsOfSubset(tools: seq<Tool>, r: seq<Tool>)
    requires UniqueIds(tools)
    requires forall i :: 0 <= i < |r| ==> r[i] in tools
    requires forall i, j :: 0 <= i < j < |r| ==> r[i] != r[j]
    ensures UniqueIds(r)
  {
    forall i, j | 0 <= i < j < |r| ensures r[i].id != r[j].id {
      var a :| 0 <= a < |tools| && tools[a] == r[i];
      var b :| 0 <= b < |tools| && tools[b] == r[j];
      assert a != b;
    }
  }

  /** Every popularity is a percentage. */
  ghost predicate PopularityInRange(tools: seq<Tool>) {
    forall i :: 0 <= i < |tools| ==> 0 <= tools[i].popularity <= 100
  }
}
