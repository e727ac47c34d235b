/**
 The `categories` view: the sidebar's list of (category, count) pairs.

 The page reduces the catalog into a plain object keyed by category, then
 sorts `Object.entries` of it by count, largest first. The object is modelled
 as an association list in key-insertion order, which is the order
 `Object.entries` yields for keys that are not array indices.
 */
module CategoryCounts {
  import opened Seqs
  import opened StableSort
  import opened Tools

  /** One `[category, count]` entry of the object. */
  datatype CategoryCount = CategoryCount(category: string, count: int)

  /** The number of tools in category `c`. */
  function CountOf(tools: seq<Tool>, c: string): nat {
    if |tools| == 0 then 0
    else (if tools[0].category == c then 1 else 0) + CountOf(tools[1..], c)
  }

  /** Counting over a suffix, split at its first tool. */
  lemma CountOfSuffix(tools: seq<Tool>, k: int, c: string)
    requires 0 <= k < |tools|
    ensures CountOf(tools[k..], c) == (if tools[k].category == c then 1 else 0) + CountOf(tools[k + 1..], c)
  {
    assert tools[k..][1..] == tools[k + 1..];
  }

  /** Counting over a catalog grown by one tool at the end. */
  lemma {:induction false} CountOfSnoc(tools: seq<Tool>, t: Tool, c: string)
    ensures CountOf(tools + [t], c) == CountOf(tools, c) + (if t.category == c then 1 else 0)
  {
    if |tools| > 0 {
      assert (tools + [t])[1..] == tools[1..] + [t];
      CountOfSnoc(tools[1..], t, c);
    }
  }

  /** The position of the first tool in category `c`, or `|tools|` when there is none. */
  function FirstIndex(tools: seq<Tool>, c: string): (n: nat)
    ensures n <= |tools|
    ensures n < |tools| <==> CountOf(tools, c) > 0
    ensures n < |tools| ==> tools[n].category == c
    ensures forall i :: 0 <= i < n ==> tools[i].category != c
  {
    if |tools| == 0 then 0
    else if tools[0].category == c then 0
    else 1 + FirstIndex(tools[1..], c)
  }

  /** First positions over a catalog grown by one tool at the end. */
  lemma FirstIndexSnoc(tools: seq<Tool>, t: Tool, c: string)
    ensures CountOf(tools, c) > 0 ==> FirstIndex(tools + [t], c) == FirstIndex(tools, c)
    ensures CountOf(tools, c) == 0 && t.category == c ==> FirstIndex(tools + [t], c) == |tools|
  {
    var s := tools + [t];
    var n := FirstIndex(tools, c);
    var m := FirstIndex(s, c);
    CountOfSnoc(tools, t, c);
    if CountOf(tools, c) > 0 {
      assert s[n] == tools[n];
    } else if t.category == c {
      assert s[|tools|] == t;
      assert forall i :: 0 <= i < |tools| ==> s[i] == tools[i];
    }
  }

  /** The object has an entry for `c`. */
  ghost predicate HasKey(entries: seq<CategoryCount>, c: string) {
    exists i :: 0 <= i < |entries| && entries[i].category == c
  }

  /** No key occurs twice, as in any JavaScript object. */
  ghost predicate DistinctKeys(entries: seq<CategoryCount>) {
    forall i, j :: 0 <= i < j < |entries| ==> entries[i].category != entries[j].category
  }

  /** `acc[c] || 0`: the count stored under `c`, or 0 when `c` has no entry. */
  function Lookup(entries: seq<CategoryCount>, c: string): int {
    if |entries| == 0 then 0
    else if entries[0].category == c then entries[0].count
    else Lookup(entries[1..], c)
  }

  /** With distinct keys, looking up an entry's key finds that entry's count; a missing key reads 0. */
  lemma {:induction false} LookupFinds(entries: seq<CategoryCount>, c: string)
    requires DistinctKeys(entries)
    ensures forall i :: 0 <= i < |entries| && entries[i].category == c ==> Lookup(entries, c) == entries[i].count
    ensures !HasKey(entries, c) ==> Lookup(entries, c) == 0
  {
    if |entries| > 0 {
      LookupFinds(entries[1..], c);
      forall i | 0 < i < |entries| && entries[i].category == c
        ensures Lookup(entries, c) == entries[i].count
      {
        assert entries[1..][i - 1] == entries[i];
      }
      if !HasKey(entries, c) {
        assert entries[0].category != c;
        forall i | 0 <= i < |entries[1..]| ensures entries[1..][i].category != c {
          assert entries[1..][i] == entries[i + 1];
        }
      }
    }
  }

  /** The sum of all counts. */
  function Total(entries: seq<CategoryCount>): int {
    if |entries| == 0 then 0 else entries[0].count + Total(entries[1..])
  }

  /**
   One step of the reduce, `acc[c] = (acc[c] || 0) + 1`: the entry for `c` is
   incremented where it stands and every other entry is left alone; a new key
   is appended with count 1.
   */
  function Tally(acc: seq<CategoryCount>, c: string): (r: seq<CategoryCount>)
    requires DistinctKeys(acc)
    ensures |r| == if HasKey(acc, c) then |acc| else |acc| + 1
    ensures forall i :: 0 <= i < |acc| ==>
              r[i].category == acc[i].category && r[i].count == acc[i].count + (if acc[i].category == c then 1 else 0)
    ensures !HasKey(acc, c) ==> r[|acc|] == CategoryCount(c, 1)
  {
    if |acc| == 0 then [CategoryCount(c, 1)]
    else
      assert forall i :: 0 < i < |acc| ==> acc[1..][i - 1] == acc[i];
      if acc[0].category == c then
        [acc[0].(count := acc[0].count + 1)] + acc[1..]
      else
        var rest := Tally(acc[1..], c);
        assert HasKey(acc, c) <==> HasKey(acc[1..], c);
        [acc[0]] + rest
  }

  /** The step keeps keys distinct, so the result is again a valid object. */
  lemma TallyDistinct(acc: seq<CategoryCount>, c: string)
    requires DistinctKeys(acc)
    ensures DistinctKeys(Tally(acc, c))
  {
    var r := Tally(acc, c);
    forall i, j | 0 <= i < j < |r| ensures r[i].category != r[j].category {
      if j == |acc| {
        assert !HasKey(acc, c) && r[j].category == c;
        assert acc[i].category != c;
      }
    }
  }

  /**
   Line 40 in its own terms: after the step, reading `c` gives one more than
   `acc[c] || 0` gave, and reading any other key gives what it gave before.
   */
  lemma TallyLookup(acc: seq<CategoryCount>, c: string, k: string)
    requires DistinctKeys(acc)
    ensures Lookup(Tally(acc, c), k) == Lookup(acc, k) + (if k == c then 1 else 0)
  {
    var r := Tally(acc, c);
    TallyDistinct(acc, c);
    LookupFinds(acc, k);
    LookupFinds(r, k);
    if HasKey(acc, k) {
      var i :| 0 <= i < |acc| && acc[i].category == k;
      assert r[i].category == k;
    } else if k == c {
      assert r[|acc|].category == k;
    } else {
      assert !HasKey(r, k) by {
        forall i | 0 <= i < |r| ensures r[i].category != k {
          if i < |acc| {
            assert r[i].category == acc[i].category;
          }
        }
      }
    }
  }

  /** The step adds exactly one to the sum of the counts. */
  lemma {:induction false} TallyTotal(acc: seq<CategoryCount>, c: string)
    requires DistinctKeys(acc)
    ensures Total(Tally(acc, c)) == Total(acc) + 1
  {
    if |acc| > 0 && acc[0].category != c {
      assert forall i :: 0 < i < |acc| ==> acc[1..][i - 1] == acc[i];
      TallyTotal(acc[1..], c);
    }
  }

  /** `tools.reduce(step, {})`: the counts per category, keys in order of first appearance. */
  function CountCategories(tools: seq<Tool>): (r: seq<CategoryCount>)
    ensures DistinctKeys(r)
    ensures forall i :: 0 <= i < |r| ==> r[i].count == CountOf(tools, r[i].category) > 0
    ensures forall k :: CountOf(tools, k) > 0 ==> HasKey(r, k)
    ensures forall i, j :: 0 <= i < j < |r| ==> FirstIndex(tools, r[i].category) < FirstIndex(tools, r[j].category)
    ensures Total(r) == |tools|
  {
    if |tools| == 0 then []
    else
      var prefix, t := tools[..|tools| - 1], tools[|tools| - 1];
      var acc := CountCategories(prefix);
      var r := Tally(acc, t.category);
      SplitLast(tools);
      TallyStep(tools, prefix, t, acc, r);
      r
  }

  /** One step of the reduce keeps every fact `CountCategories` promises. */
  lemma TallyStep(tools: seq<Tool>, prefix: seq<Tool>, t: Tool, acc: seq<CategoryCount>, r: seq<CategoryCount>)
    requires tools == prefix + [t]
    requires DistinctKeys(acc)
    requires forall i :: 0 <= i < |acc| ==> acc[i].count == CountOf(prefix, acc[i].category) > 0
    requires forall k :: CountOf(prefix, k) > 0 ==> HasKey(acc, k)
    requires forall i, j :: 0 <= i < j < |acc| ==> FirstIndex(prefix, acc[i].category) < FirstIndex(prefix, acc[j].category)
    requires Total(acc) == |prefix|
    requires r == Tally(acc, t.category)
    ensures DistinctKeys(r)
    ensures forall i :: 0 <= i < |r| ==> r[i].count == CountOf(tools, r[i].category) > 0
    ensures forall k :: CountOf(tools, k) > 0 ==> HasKey(r, k)
    ensures forall i, j :: 0 <= i < j < |r| ==> FirstIndex(tools, r[i].category) < FirstIndex(tools, r[j].category)
    ensures Total(r) == |tools|
  {
    TallyDistinct(acc, t.category);
    TallyTotal(acc, t.category);
    TallyCounts(prefix, t, acc, r);
    TallyKeys(prefix, t, acc, r);
    TallyFirstSeen(prefix, t, acc, r);
  }

  /** Tallying one more tool turns the counts of a catalog into those of the catalog grown by it. */
  lemma TallyCounts(prefix: seq<Tool>, t: Tool, acc: seq<CategoryCount>, r: seq<CategoryCount>)
    requires DistinctKeys(acc)
    requires forall i :: 0 <= i < |acc| ==> acc[i].count == CountOf(prefix, acc[i].category) > 0
    requires forall k :: CountOf(prefix, k) > 0 ==> HasKey(acc, k)
    requires r == Tally(acc, t.category)
    ensures forall i :: 0 <= i < |r| ==> r[i].count == CountOf(prefix + [t], r[i].category) > 0
  {
    forall i | 0 <= i < |r| ensures r[i].count == CountOf(prefix + [t], r[i].category) > 0 {
      TallyCountAt(prefix, t, acc, r, i);
    }
  }

  lemma TallyCountAt(prefix: seq<Tool>, t: Tool, acc: seq<CategoryCount>, r: seq<CategoryCount>, i: int)
    requires DistinctKeys(acc)
    requires forall i :: 0 <= i < |acc| ==> acc[i].count == CountOf(prefix, acc[i].category) > 0
    requires forall k :: CountOf(prefix, k) > 0 ==> HasKey(acc, k)
    requires r == Tally(acc, t.category)
    requires 0 <= i < |r|
    ensures r[i].count == CountOf(prefix + [t], r[i].category) > 0
  {
    CountOfSnoc(prefix, t, r[i].category);
    if i < |acc| {
      assert r[i].category == acc[i].category;
    } else {
      assert r[i] == CategoryCount(t.category, 1);
      assert CountOf(prefix, t.category) == 0;
    }
  }

  /** Tallying one more tool adds its category to the keys, if it is new. */
  lemma TallyKeys(prefix: seq<Tool>, t: Tool, acc: seq<CategoryCount>, r: seq<CategoryCount>)
    requires DistinctKeys(acc)
    requires forall k :: CountOf(prefix, k) > 0 ==> HasKey(acc, k)
    requires r == Tally(acc, t.category)
    ensures forall k :: CountOf(prefix + [t], k) > 0 ==> HasKey(r, k)
  {
    forall k | CountOf(prefix + [t], k) > 0 ensures HasKey(r, k) {
      CountOfSnoc(prefix, t, k);
      if HasKey(acc, k) {
        var i :| 0 <= i < |acc| && acc[i].category == k;
        assert r[i].category == k;
      } else {
        assert r[|acc|].category == k;
      }
    }
  }

  /** Tallying one more tool keeps the keys in order of first appearance. */
  lemma TallyFirstSeen(prefix: seq<Tool>, t: Tool, acc: seq<CategoryCount>, r: seq<CategoryCount>)
    requires DistinctKeys(acc)
    requires forall i :: 0 <= i < |acc| ==> CountOf(prefix, acc[i].category) > 0
    requires forall k :: CountOf(prefix, k) > 0 ==> HasKey(acc, k)
    requires forall i, j :: 0 <= i < j < |acc| ==> FirstIndex(prefix, acc[i].category) < FirstIndex(prefix, acc[j].category)
    requires r == Tally(acc, t.category)
    ensures forall i, j :: 0 <= i < j < |r| ==> FirstIndex(prefix + [t], r[i].category) < FirstIndex(prefix + [t], r[j].category)
  {
    var tools := prefix + [t];
    forall i | 0 <= i < |acc|
      ensures FirstIndex(tools, r[i].category) == FirstIndex(prefix, acc[i].category) < |prefix|
    {
      FirstIndexSnoc(prefix, t, acc[i].category);
    }
    if |r| > |acc| {
      FirstIndexSnoc(prefix, t, t.category);
    }
    forall i, j | 0 <= i < j < |r| ensures FirstIndex(tools, r[i].category) < FirstIndex(tools, r[j].category) {
      if j == |acc| {
        assert FirstIndex(tools, r[j].category) == |prefix|;
      }
    }
  }

  /** The comparator `(a, b) => b[1] - a[1]`: larger counts first. */
  function CountOrder(): (CategoryCount, CategoryCount) -> int {
    (a: CategoryCount, b: CategoryCount) => b.count - a.count
  }

  lemma CountOrderValid()
    ensures ValidComparator(CountOrder())
  {
    var cmp := CountOrder();
    forall a, b ensures Antisymmetric(cmp, a, b) {
    }
    forall a, b, c ensures Transitive(cmp, a, b, c) {
    }
  }

  /** `categories`: the per-category counts, largest first, equal counts in order of first appearance. */
  function Categories(tools: seq<Tool>): (r: seq<CategoryCount>)
    ensures multiset(r) == multiset(CountCategories(tools))
    ensures forall i, j :: 0 <= i < j < |r| ==> r[i].count >= r[j].count
    ensures forall i, j :: 0 <= i < j < |r| && r[i].count == r[j].count ==>
              FirstIndex(tools, r[i].category) < FirstIndex(tools, r[j].category)
  {
    CountOrderValid();
    var r := Sort(CountOrder(), CountCategories(tools));
    CategoriesOrder(tools, r);
    r
  }

  /** Ordering facts of a stable sort of the tallied entries by count. */
  lemma CategoriesOrder(tools: seq<Tool>, r: seq<CategoryCount>)
    requires ValidComparator(CountOrder())
    requires Sorted(CountOrder(), r) && Stable(CountOrder(), CountCategories(tools), r)
    ensures forall i, j :: 0 <= i < j < |r| ==> r[i].count >= r[j].count
    ensures forall i, j :: 0 <= i < j < |r| && r[i].count == r[j].count ==>
              FirstIndex(tools, r[i].category) < FirstIndex(tools, r[j].category)
  {
    var s := CountCategories(tools);
    forall i, j | 0 <= i < j < |r| ensures r[i].count >= r[j].count {
      assert CountOrder()(r[i], r[j]) <= 0;
    }
    forall i, j | 0 <= i < j < |r| && r[i].count == r[j].count
      ensures FirstIndex(tools, r[i].category) < FirstIndex(tools, r[j].category)
    {
      assert CountOrder()(r[i], r[j]) == 0;
      StableKeepsOrder(CountOrder(), s, r, i, j);
      var a, b :| 0 <= a < b < |s| && s[a] == r[i] && s[b] == r[j];
    }
  }

  /** Each listed count is the number of tools in that category, and no category is listed twice. */
  lemma CategoriesCounts(tools: seq<Tool>)
    ensures var r := Categories(tools);
      forall i :: 0 <= i < |r| ==> r[i].count == CountOf(tools, r[i].category) > 0
    ensures DistinctKeys(Categories(tools))
  {
    var s := CountCategories(tools);
    var r := Categories(tools);
    forall i | 0 <= i < |r| ensures r[i].count == CountOf(tools, r[i].category) > 0 {
      assert r[i] in multiset(s);
      var k :| 0 <= k < |s| && s[k] == r[i];
    }
    assert Distinct(s);
    DistinctPermutation(s, r);
  }

  /** Exactly the categories some tool has are listed. */
  lemma CategoriesKeys(tools: seq<Tool>)
    ensures forall c :: HasKey(Categories(tools), c) <==> CountOf(tools, c) > 0
  {
    CategoriesCounts(tools);
    var s, r := CountCategories(tools), Categories(tools);
    forall c | CountOf(tools, c) > 0 ensures HasKey(r, c) {
      HasKeyPermutation(s, r, c);
    }
  }

  /** Rearranging entries keeps every key. */
  lemma HasKeyPermutation(s: seq<CategoryCount>, r: seq<CategoryCount>, c: string)
    requires multiset(r) == multiset(s)
    requires HasKey(s, c)
    ensures HasKey(r, c)
  {
    var k :| 0 <= k < |s| && s[k].category == c;
    assert s[k] in multiset(r);
    var i :| 0 <= i < |r| && r[i] == s[k];
  }

  /** Reading the listed counts as the object `acc`: `acc[c] || 0` is the number of tools in category `c`. */
  lemma CategoriesLookup(tools: seq<Tool>, c: string)
    ensures Lookup(Categories(tools), c) == CountOf(tools, c)
  {
    var r := Categories(tools);
    CategoriesCounts(tools);
    CategoriesKeys(tools);
    LookupFinds(r, c);
    if HasKey(r, c) {
      var i :| 0 <= i < |r| && r[i].category == c;
    }
  }

  /** The counts add up to the catalog size, the number the "All" button shows. */
  lemma CategoriesTotal(tools: seq<Tool>)
    ensures Total(Categories(tools)) == |tools|
  {
    TotalPermutation(Categories(tools), CountCategories(tools));
  }

  /** Rearranging entries does not change their total. */
  lemma {:induction false} TotalPermutation(a: seq<CategoryCount>, b: seq<CategoryCount>)
    requires multiset(a) == multiset(b)
    ensures Total(a) == Total(b)
    decreases |a|
  {
    if |a| == 0 {
      assert |b| == |multiset(b)| == 0;
    } else {
      assert a[0] in multiset(b);
      var k :| 0 <= k < |b| && b[k] == a[0];
      var rest := b[..k] + b[k + 1..];
      RemoveOne(a, b, k);
      TotalPermutation(a[1..], rest);
      TotalRemove(b, k);
    }
  }

  /** Taking the same element off two permutations of each other leaves permutations. */
  lemma RemoveOne<T>(a: seq<T>, b: seq<T>, k: int)
    requires multiset(a) == multiset(b)
    requires 0 <= k < |b| && 0 < |a| && b[k] == a[0]
    ensures multiset(a[1..]) == multiset(b[..k] + b[k + 1..])
  {
    assert a == [a[0]] + a[1..];
    assert b == b[..k] + [b[k]] + b[k + 1..];
    assert multiset(b) == multiset(b[..k] + b[k + 1..]) + multiset{b[k]};
    assert multiset(a) == multiset(a[1..]) + multiset{a[0]};
    forall x ensures multiset(a[1..])[x] == multiset(b[..k] + b[k + 1..])[x] {
      assert multiset(a)[x] == multiset(b)[x];
    }
  }

  /** The total is the removed entry's count plus the total of the rest. */
  lemma {:induction false} TotalRemove(b: seq<CategoryCount>, k: int)
    requires 0 <= k < |b|
    ensures Total(b) == b[k].count + Total(b[..k] + b[k + 1..])
  {
    if k == 0 {
      assert b[..0] + b[1..] == b[1..];
    } else {
      TotalRemove(b[1..], k - 1);
      assert b[..k] + b[k + 1..] == [b[0]] + (b[1..][..k - 1] + b[1..][k..]);
    }
  }
}
