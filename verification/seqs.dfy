/**
 Generic facts about sequences used by the derived views: an order-preserving
 filter (the model of `Array.prototype.filter`), the "x occurs before y"
 relation, and element distinctness stated through multiplicities.
 */
module Seqs {

  /** The elements of `s` that satisfy `p`, in their original order. */
  function Filter<T(!new)>(s: seq<T>, p: T -> bool): (r: seq<T>)
    ensures |r| <= |s|
    ensures forall i :: 0 <= i < |r| ==> p(r[i])
  {
    if |s| == 0 then []
    else
      var rest := Filter(s[1..], p);
      assert s == [s[0]] + s[1..];
      if p(s[0]) then [s[0]] + rest else rest
  }

  /** The filter of a non-empty sequence, one element at a time. */
  lemma FilterCons<T(!new)>(s: seq<T>, p: T -> bool)
    requires |s| > 0
    ensures Filter(s, p) == if p(s[0]) then [s[0]] + Filter(s[1..], p) else Filter(s[1..], p)
  {
  }

  /** The filter of a suffix, split at its first element. */
  lemma FilterSuffix<T(!new)>(s: seq<T>, p: T -> bool, k: int)
    requires 0 <= k < |s|
    ensures Filter(s[k..], p) == (if p(s[k]) then [s[k]] else []) + Filter(s[k + 1..], p)
  {
    FilterCons(s[k..], p);
    assert s[k..][1..] == s[k + 1..];
  }

  /** Filtering keeps each accepted element exactly as often as it occurs, and drops every other one. */
  lemma {:induction false} FilterMultiplicity<T(!new)>(s: seq<T>, p: T -> bool, x: T)
    ensures multiset(Filter(s, p))[x] == if p(x) then multiset(s)[x] else 0
  {
    if |s| > 0 {
      FilterMultiplicity(s[1..], p, x);
      assert s == [s[0]] + s[1..];
      if p(s[0]) {
        assert Filter(s, p) == [s[0]] + Filter(s[1..], p);
      }
    }
  }

  /** `FilterMultiplicity` for every element at once. */
  lemma FilterMultiset<T(!new)>(s: seq<T>, p: T -> bool)
    ensures forall x :: multiset(Filter(s, p))[x] == if p(x) then multiset(s)[x] else 0
  {
    forall x ensures multiset(Filter(s, p))[x] == if p(x) then multiset(s)[x] else 0 {
      FilterMultiplicity(s, p, x);
    }
  }

  /** Filtering keeps exactly the accepted elements. */
  lemma FilterMembership<T(!new)>(s: seq<T>, p: T -> bool)
    ensures forall x :: x in Filter(s, p) <==> x in s && p(x)
  {
    forall x ensures x in Filter(s, p) <==> x in s && p(x) {
      FilterMultiplicity(s, p, x);
    }
  }

  /** Filters with predicates that agree on every element give the same result. */
  lemma {:induction false} FilterExtensional<T(!new)>(s: seq<T>, p: T -> bool, q: T -> bool)
    requires forall i :: 0 <= i < |s| ==> p(s[i]) == q(s[i])
    ensures Filter(s, p) == Filter(s, q)
  {
    if |s| > 0 {
      FilterExtensional(s[1..], p, q);
    }
  }

  /** A filter that accepts every element is the identity. */
  lemma {:induction false} FilterAll<T(!new)>(s: seq<T>, p: T -> bool)
    requires forall i :: 0 <= i < |s| ==> p(s[i])
    ensures Filter(s, p) == s
  {
    if |s| > 0 {
      FilterAll(s[1..], p);
      assert s == [s[0]] + s[1..];
    }
  }

  /** `x` occurs at some position strictly before an occurrence of `y` in `s`. */
  ghost predicate OrderedIn<T>(s: seq<T>, x: T, y: T) {
    exists a, b :: 0 <= a < b < |s| && s[a] == x && s[b] == y
  }

  /** In a distinct sequence, two elements cannot each occur before the other. */
  lemma OrderedInAsymmetric<T>(s: seq<T>, x: T, y: T)
    requires Distinct(s)
    ensures !(OrderedIn(s, x, y) && OrderedIn(s, y, x))
  {
    if OrderedIn(s, x, y) {
      var a, b :| 0 <= a < b < |s| && s[a] == x && s[b] == y;
      forall c, d | 0 <= c < d < |s| && s[c] == y ensures s[d] != x {
        assert c == b;
      }
    }
  }

  /** Two sequences ordered by a distinct `s` that contain each other's heads start alike. */
  lemma OrderedInSameHead<T>(s: seq<T>, r: seq<T>, q: seq<T>)
    requires Distinct(s)
    requires |r| > 0 && |q| > 0 && r[0] in q && q[0] in r
    requires forall i, j :: 0 <= i < j < |r| ==> OrderedIn(s, r[i], r[j])
    requires forall i, j :: 0 <= i < j < |q| ==> OrderedIn(s, q[i], q[j])
    ensures r[0] == q[0]
  {
    var k :| 0 <= k < |q| && q[k] == r[0];
    var m :| 0 <= m < |r| && r[m] == q[0];
    assert k > 0 ==> OrderedIn(s, q[0], q[k]);
    assert m > 0 ==> OrderedIn(s, r[0], r[m]);
    OrderedInAsymmetric(s, r[0], q[0]);
  }

  /**
   Two sequences with the same elements, each listing every pair in the order
   of a distinct sequence `s`, are equal: the order of `s` fixes them.
   */
  lemma {:induction false} OrderedInDetermines<T>(s: seq<T>, r: seq<T>, q: seq<T>)
    requires Distinct(s)
    requires multiset(r) == multiset(q)
    requires forall i, j :: 0 <= i < j < |r| ==> OrderedIn(s, r[i], r[j])
    requires forall i, j :: 0 <= i < j < |q| ==> OrderedIn(s, q[i], q[j])
    ensures r == q
    decreases |r|
  {
    assert |r| == |multiset(r)| == |multiset(q)| == |q|;
    if |r| > 0 {
      assert r[0] in multiset(q) && q[0] in multiset(r);
      OrderedInSameHead(s, r, q);
      SameTails(r, q);
      OrderedTail(s, r);
      OrderedTail(s, q);
      OrderedInDetermines(s, r[1..], q[1..]);
      assert r == [r[0]] + r[1..] && q == [q[0]] + q[1..];
    }
  }

  /** Equal multisets with equal heads have equal tails. */
  lemma SameTails<T>(r: seq<T>, q: seq<T>)
    requires |r| > 0 && |q| > 0 && r[0] == q[0]
    requires multiset(r) == multiset(q)
    ensures multiset(r[1..]) == multiset(q[1..])
  {
    assert r == [r[0]] + r[1..] && q == [q[0]] + q[1..];
    assert multiset(r) == multiset{r[0]} + multiset(r[1..]);
    assert multiset(q) == multiset{q[0]} + multiset(q[1..]);
    forall t ensures multiset(r[1..])[t] == multiset(q[1..])[t] {
      assert multiset(r)[t] == multiset(q)[t];
    }
  }

  /** The tail of a sequence ordered by `s` is ordered by `s`. */
  lemma OrderedTail<T>(s: seq<T>, r: seq<T>)
    requires |r| > 0
    requires forall i, j :: 0 <= i < j < |r| ==> OrderedIn(s, r[i], r[j])
    ensures forall i, j :: 0 <= i < j < |r[1..]| ==> OrderedIn(s, r[1..][i], r[1..][j])
  {
    forall i, j | 0 <= i < j < |r[1..]| ensures OrderedIn(s, r[1..][i], r[1..][j]) {
      assert r[1..][i] == r[i + 1] && r[1..][j] == r[j + 1];
    }
  }

  /** Two positions of a filter's result come from two positions of its input, in the same order. */
  lemma {:induction false} FilterPairBack<T(!new)>(s: seq<T>, p: T -> bool, a: int, b: int) returns (c: int, d: int)
    requires 0 <= a < b < |Filter(s, p)|
    ensures 0 <= c < d < |s| && s[c] == Filter(s, p)[a] && s[d] == Filter(s, p)[b]
  {
    FilterCons(s, p);
    if p(s[0]) {
      if a == 0 {
        var k := FilterOrigin(s[1..], p, b - 1);
        c, d := 0, k + 1;
      } else {
        c, d := FilterPairBack(s[1..], p, a - 1, b - 1);
        c, d := c + 1, d + 1;
      }
    } else {
      c, d := FilterPairBack(s[1..], p, a, b);
      c, d := c + 1, d + 1;
    }
  }

  /** Every position of a filter's result comes from a position of its input. */
  lemma {:induction false} FilterOrigin<T(!new)>(s: seq<T>, p: T -> bool, a: int) returns (c: int)
    requires 0 <= a < |Filter(s, p)|
    ensures 0 <= c < |s| && s[c] == Filter(s, p)[a]
  {
    FilterCons(s, p);
    if p(s[0]) && a == 0 {
      c := 0;
    } else {
      c := FilterOrigin(s[1..], p, if p(s[0]) then a - 1 else a);
      c := c + 1;
    }
  }

  /** Filtering never reverses two elements: an ordered pair of the result is ordered in the input. */
  lemma FilterOrderedIn<T(!new)>(s: seq<T>, p: T -> bool, x: T, y: T)
    requires OrderedIn(Filter(s, p), x, y)
    ensures OrderedIn(s, x, y)
  {
    var a, b :| 0 <= a < b < |Filter(s, p)| && Filter(s, p)[a] == x && Filter(s, p)[b] == y;
    var c, d := FilterPairBack(s, p, a, b);
  }

  /** Two accepted positions of the input appear in the result, in the same order. */
  lemma {:induction false} FilterPairForth<T(!new)>(s: seq<T>, p: T -> bool, i: int, j: int) returns (a: int, b: int)
    requires 0 <= i < j < |s|
    requires p(s[i]) && p(s[j])
    ensures 0 <= a < b < |Filter(s, p)| && Filter(s, p)[a] == s[i] && Filter(s, p)[b] == s[j]
  {
    FilterCons(s, p);
    assert s[1..][j - 1] == s[j];
    if i == 0 {
      var k := FilterPosition(s[1..], p, j - 1);
      a, b := 0, k + 1;
    } else {
      assert s[1..][i - 1] == s[i];
      a, b := FilterPairForth(s[1..], p, i - 1, j - 1);
      if p(s[0]) {
        a, b := a + 1, b + 1;
      }
    }
  }

  /** An accepted position of the input appears in the result. */
  lemma {:induction false} FilterPosition<T(!new)>(s: seq<T>, p: T -> bool, j: int) returns (b: int)
    requires 0 <= j < |s| && p(s[j])
    ensures 0 <= b < |Filter(s, p)| && Filter(s, p)[b] == s[j]
  {
    FilterCons(s, p);
    if j == 0 {
      b := 0;
    } else {
      assert s[1..][j - 1] == s[j];
      b := FilterPosition(s[1..], p, j - 1);
      if p(s[0]) {
        b := b + 1;
      }
    }
  }

  /** A non-empty sequence is its prefix followed by its last element. */
  lemma SplitLast<T>(s: seq<T>)
    requires |s| > 0
    ensures s == s[..|s| - 1] + [s[|s| - 1]]
  {
  }

  /** No element occurs twice. */
  ghost predicate Distinct<T>(s: seq<T>) {
    forall i, j :: 0 <= i < j < |s| ==> s[i] != s[j]
  }

  /** Distinctness is exactly "every multiplicity is at most one", so it depends only on the multiset. */
  lemma {:induction false} DistinctIffSingleOccurrences<T>(s: seq<T>)
    ensures Distinct(s) <==> forall x :: multiset(s)[x] <= 1
  {
    if |s| > 0 {
      DistinctIffSingleOccurrences(s[1..]);
      assert s == [s[0]] + s[1..];
      assert multiset(s) == multiset{s[0]} + multiset(s[1..]);
      if Distinct(s) {
        assert Distinct(s[1..]) by {
          forall i, j | 0 <= i < j < |s[1..]| ensures s[1..][i] != s[1..][j] {
            assert s[1..][i] == s[i + 1] && s[1..][j] == s[j + 1];
          }
        }
      }
      if forall x :: multiset(s)[x] <= 1 {
        assert forall x :: multiset(s[1..])[x] <= 1 by {
          forall x ensures multiset(s[1..])[x] <= 1 {
            assert multiset(s)[x] <= 1;
          }
        }
        assert s[0] !in multiset(s[1..]) by {
          assert multiset(s)[s[0]] <= 1;
        }
        forall i, j | 0 <= i < j < |s| ensures s[i] != s[j] {
          if i == 0 {
            assert s[j] == s[1..][j - 1];
          } else {
            assert s[i] == s[1..][i - 1] && s[j] == s[1..][j - 1];
          }
        }
      }
    }
  }

  /** A sequence that holds nothing more often than a distinct sequence is distinct. */
  lemma DistinctSubMultiset<T>(s: seq<T>, r: seq<T>)
    requires multiset(r) <= multiset(s)
    requires Distinct(s)
    ensures Distinct(r)
  {
    DistinctIffSingleOccurrences(s);
    DistinctIffSingleOccurrences(r);
    forall x ensures multiset(r)[x] <= 1 {
      assert multiset(r)[x] <= multiset(s)[x];
    }
  }

  /** A permutation of a distinct sequence is distinct. */
  lemma DistinctPermutation<T>(s: seq<T>, r: seq<T>)
    requires multiset(r) == multiset(s)
    requires Distinct(s)
    ensures Distinct(r)
  {
    DistinctIffSingleOccurrences(s);
    DistinctIffSingleOccurrences(r);
  }
}
