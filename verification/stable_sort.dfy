/**
 A model of `Array.prototype.sort(compare)` with a consistent comparator.

 The comparator follows the JavaScript convention: `cmp(a, b) < 0` puts `a`
 first, `cmp(a, b) > 0` puts `b` first, and `0` leaves the two in their
 original relative order, because the ECMAScript 2019 edition and later
 require the sort to be stable. The engine's own algorithm is not part of
 the model; `Sort` is an insertion sort, and `SortIsUnique` shows that any
 stable sorted permutation is the same sequence, so nothing is lost by the
 choice.
 */
module StableSort {
  import opened Seqs

  /**
   A comparator the standard calls consistent: swapping the arguments flips the
   sign, and "sorts no later than" is transitive.
   */
  ghost predicate ValidComparator<T(!new)>(cmp: (T, T) -> int) {
    && (forall a, b :: Antisymmetric(cmp, a, b))
    && (forall a, b, c :: Transitive(cmp, a, b, c))
  }

  /** Swapping the arguments flips the sign of the comparison. */
  predicate Antisymmetric<T>(cmp: (T, T) -> int, a: T, b: T) {
    cmp(a, b) < 0 <==> cmp(b, a) > 0
  }

  /** If `a` sorts no later than `b` and `b` no later than `c`, then `a` sorts no later than `c`. */
  predicate Transitive<T>(cmp: (T, T) -> int, a: T, b: T, c: T) {
    cmp(a, b) <= 0 && cmp(b, c) <= 0 ==> cmp(a, c) <= 0
  }

  /** Every earlier element sorts no later than every later one. */
  ghost predicate Sorted<T>(cmp: (T, T) -> int, s: seq<T>) {
    forall i, j :: 0 <= i < j < |s| ==> cmp(s[i], s[j]) <= 0
  }

  /** The elements of `s` that the comparator cannot tell apart from `t`, in order. */
  function Ties<T(!new)>(cmp: (T, T) -> int, s: seq<T>, t: T): seq<T> {
    Filter(s, TiedTo(cmp, t))
  }

  /** "The comparator ties `x` with `t`", as a filter predicate. */
  function TiedTo<T>(cmp: (T, T) -> int, t: T): T -> bool {
    x => cmp(x, t) == 0
  }

  /** The tie class of `t` in `s` holds exactly the elements of `s` tied with `t`. */
  lemma TiesMembership<T(!new)>(cmp: (T, T) -> int, s: seq<T>, t: T)
    ensures forall x :: x in Ties(cmp, s, t) <==> x in s && cmp(x, t) == 0
  {
    FilterMembership(s, TiedTo(cmp, t));
  }

  /** `r` keeps, for every class of mutually tied elements, exactly the order those elements have in `s`. */
  ghost predicate Stable<T(!new)>(cmp: (T, T) -> int, s: seq<T>, r: seq<T>) {
    forall t :: Ties(cmp, r, t) == Ties(cmp, s, t)
  }

  lemma TiedIsEquivalence<T(!new)>(cmp: (T, T) -> int, a: T, b: T, c: T)
    requires ValidComparator(cmp)
    ensures cmp(a, a) == 0
    ensures cmp(a, b) == 0 ==> cmp(b, a) == 0
    ensures cmp(a, b) == 0 && cmp(b, c) == 0 ==> cmp(a, c) == 0
  {
    assert Antisymmetric(cmp, a, a) && Antisymmetric(cmp, a, b) && Antisymmetric(cmp, b, c);
    assert Antisymmetric(cmp, a, c) && Antisymmetric(cmp, b, a);
    assert Transitive(cmp, a, b, c) && Transitive(cmp, c, b, a);
  }

  /**
   Inserts `x` into `s` in front of the first element it sorts no later than,
   that is, behind every element that sorts strictly before it.
   */
  function Insert<T(!new)>(cmp: (T, T) -> int, x: T, s: seq<T>): (r: seq<T>)
    requires ValidComparator(cmp)
    ensures multiset(r) == multiset(s) + multiset{x}
    ensures Sorted(cmp, s) ==> Sorted(cmp, r)
    ensures Sorted(cmp, s) ==> forall t :: Ties(cmp, r, t) == (if cmp(x, t) == 0 then [x] else []) + Ties(cmp, s, t)
  {
    if |s| == 0 then [x]
    else if cmp(x, s[0]) <= 0 then
      InsertAtHead(cmp, x, s);
      [x] + s
    else
      var rest := Insert(cmp, x, s[1..]);
      InsertAfterHead(cmp, x, s, rest);
      [s[0]] + rest
  }

  /** The base case of `Insert`: `x` sorts no later than `s[0]`, so it goes in front. */
  lemma InsertAtHead<T(!new)>(cmp: (T, T) -> int, x: T, s: seq<T>)
    requires ValidComparator(cmp)
    requires |s| > 0 && cmp(x, s[0]) <= 0
    ensures Sorted(cmp, s) ==> Sorted(cmp, [x] + s)
    ensures forall t :: Ties(cmp, [x] + s, t) == (if cmp(x, t) == 0 then [x] else []) + Ties(cmp, s, t)
  {
    var r := [x] + s;
    if Sorted(cmp, s) {
      forall i, j | 0 <= i < j < |r| ensures cmp(r[i], r[j]) <= 0 {
        if i == 0 {
          assert Transitive(cmp, x, s[0], s[j - 1]);
        }
      }
    }
    forall t ensures Ties(cmp, r, t) == (if cmp(x, t) == 0 then [x] else []) + Ties(cmp, s, t) {
      assert r[1..] == s;
    }
  }

  /** The recursive case of `Insert`, ordering: `x` sorts strictly after `s[0]`, so `s[0]` stays in front. */
  lemma InsertAfterHeadSorted<T(!new)>(cmp: (T, T) -> int, x: T, s: seq<T>, rest: seq<T>)
    requires ValidComparator(cmp)
    requires |s| > 0 && cmp(x, s[0]) > 0
    requires multiset(rest) == multiset(s[1..]) + multiset{x}
    requires Sorted(cmp, s) && Sorted(cmp, rest)
    ensures Sorted(cmp, [s[0]] + rest)
  {
    var r := [s[0]] + rest;
    assert Antisymmetric(cmp, x, s[0]);
    forall i, j | 0 <= i < j < |r| ensures cmp(r[i], r[j]) <= 0 {
      assert r[j] == rest[j - 1];
      if i == 0 {
        assert r[j] in multiset(rest);
        if r[j] != x {
          assert r[j] in s[1..];
          var k :| 0 <= k < |s[1..]| && s[1..][k] == r[j];
          assert s[k + 1] == r[j];
        }
      } else {
        assert r[i] == rest[i - 1];
      }
    }
  }

  /** The recursive case of `Insert`, stability: `s[0]` sorts strictly before `x`, so it is not tied with anything `x` ties with. */
  lemma InsertAfterHeadTies<T(!new)>(cmp: (T, T) -> int, x: T, s: seq<T>, rest: seq<T>, t: T)
    requires ValidComparator(cmp)
    requires |s| > 0 && cmp(x, s[0]) > 0
    requires Ties(cmp, rest, t) == (if cmp(x, t) == 0 then [x] else []) + Ties(cmp, s[1..], t)
    ensures Ties(cmp, [s[0]] + rest, t) == (if cmp(x, t) == 0 then [x] else []) + Ties(cmp, s, t)
  {
    var r := [s[0]] + rest;
    assert r[1..] == rest;
    assert s == [s[0]] + s[1..];
    if cmp(x, t) == 0 {
      TiedIsEquivalence(cmp, x, t, s[0]);
      TiedIsEquivalence(cmp, s[0], t, x);
      assert cmp(s[0], t) != 0;
    }
  }

  /** The recursive case of `Insert`. */
  lemma InsertAfterHead<T(!new)>(cmp: (T, T) -> int, x: T, s: seq<T>, rest: seq<T>)
    requires ValidComparator(cmp)
    requires |s| > 0 && cmp(x, s[0]) > 0
    requires multiset(rest) == multiset(s[1..]) + multiset{x}
    requires Sorted(cmp, s[1..]) ==> Sorted(cmp, rest)
    requires Sorted(cmp, s[1..]) ==> forall t :: Ties(cmp, rest, t) == (if cmp(x, t) == 0 then [x] else []) + Ties(cmp, s[1..], t)
    ensures multiset([s[0]] + rest) == multiset(s) + multiset{x}
    ensures Sorted(cmp, s) ==> Sorted(cmp, [s[0]] + rest)
    ensures Sorted(cmp, s) ==> forall t :: Ties(cmp, [s[0]] + rest, t) == (if cmp(x, t) == 0 then [x] else []) + Ties(cmp, s, t)
  {
    assert s == [s[0]] + s[1..];
    if Sorted(cmp, s) {
      InsertAfterHeadSorted(cmp, x, s, rest);
      forall t ensures Ties(cmp, [s[0]] + rest, t) == (if cmp(x, t) == 0 then [x] else []) + Ties(cmp, s, t) {
        InsertAfterHeadTies(cmp, x, s, rest, t);
      }
    }
  }

  /** Stable insertion sort: each element is inserted in front of the later elements it ties with. */
  function Sort<T(!new)>(cmp: (T, T) -> int, s: seq<T>): (r: seq<T>)
    requires ValidComparator(cmp)
    ensures multiset(r) == multiset(s)
    ensures Sorted(cmp, r)
    ensures Stable(cmp, s, r)
  {
    if |s| == 0 then []
    else
      var rest := Sort(cmp, s[1..]);
      SortStep(cmp, s, rest);
      Insert(cmp, s[0], rest)
  }

  /** The recursive case of `Sort`: inserting the head into the sorted tail sorts the whole. */
  lemma SortStep<T(!new)>(cmp: (T, T) -> int, s: seq<T>, rest: seq<T>)
    requires ValidComparator(cmp)
    requires |s| > 0
    requires multiset(rest) == multiset(s[1..]) && Sorted(cmp, rest) && Stable(cmp, s[1..], rest)
    ensures multiset(Insert(cmp, s[0], rest)) == multiset(s)
    ensures Sorted(cmp, Insert(cmp, s[0], rest))
    ensures Stable(cmp, s, Insert(cmp, s[0], rest))
  {
    assert s == [s[0]] + s[1..];
    forall t ensures Ties(cmp, Insert(cmp, s[0], rest), t) == Ties(cmp, s, t) {
      TiesCons(cmp, s, t);
    }
  }

  /** Tied elements of a stable result appear in the order they had in the input. */
  lemma StableKeepsOrder<T(!new)>(cmp: (T, T) -> int, s: seq<T>, r: seq<T>, i: int, j: int)
    requires ValidComparator(cmp)
    requires Stable(cmp, s, r)
    requires 0 <= i < j < |r| && cmp(r[i], r[j]) == 0
    ensures OrderedIn(s, r[i], r[j])
  {
    var t := r[i];
    TiedIsEquivalence(cmp, r[i], r[j], t);
    var a, b := FilterPairForth(r, x => cmp(x, t) == 0, i, j);
    assert Ties(cmp, r, t) == Ties(cmp, s, t);
    var c, d := FilterPairBack(s, x => cmp(x, t) == 0, a, b);
  }

  /** A comparator that ties everything leaves the sequence as it is. */
  lemma {:induction false} SortAllTiedIsIdentity<T(!new)>(cmp: (T, T) -> int, s: seq<T>)
    requires ValidComparator(cmp)
    requires forall a, b :: cmp(a, b) == 0
    ensures Sort(cmp, s) == s
  {
    if |s| > 0 {
      SortAllTiedIsIdentity(cmp, s[1..]);
      assert s == [s[0]] + s[1..];
    }
  }

  /** `Ties` of a non-empty sequence, split at its head. */
  lemma TiesCons<T(!new)>(cmp: (T, T) -> int, s: seq<T>, t: T)
    requires |s| > 0
    ensures Ties(cmp, s, t) == (if cmp(s[0], t) == 0 then [s[0]] else []) + Ties(cmp, s[1..], t)
  {
  }

  /** The heads of two sorted sequences with the same tie classes tie with each other. */
  lemma SortedHeadsTie<T(!new)>(cmp: (T, T) -> int, r: seq<T>, q: seq<T>)
    requires ValidComparator(cmp)
    requires Sorted(cmp, r) && Sorted(cmp, q)
    requires forall t :: Ties(cmp, r, t) == Ties(cmp, q, t)
    requires |r| > 0
    ensures |q| > 0 && cmp(r[0], q[0]) == 0
  {
    var x := r[0];
    TiedIsEquivalence(cmp, x, x, x);
    TiesMembership(cmp, r, x);
    TiesMembership(cmp, q, x);
    assert x in Ties(cmp, r, x);
    var k :| 0 <= k < |q| && q[k] == x;
    var y := q[0];
    assert cmp(y, x) <= 0;
    TiedIsEquivalence(cmp, y, y, y);
    TiesMembership(cmp, r, y);
    TiesMembership(cmp, q, y);
    assert y in Ties(cmp, q, y);
    var m :| 0 <= m < |r| && r[m] == y;
    assert cmp(x, y) <= 0;
    assert Antisymmetric(cmp, x, y);
  }

  /**
   The order of a stable sort is determined: two sorted sequences with the same
   tie classes in the same order are equal.
   */
  lemma {:induction false} SortedTiesDetermine<T(!new)>(cmp: (T, T) -> int, r: seq<T>, q: seq<T>)
    requires ValidComparator(cmp)
    requires Sorted(cmp, r) && Sorted(cmp, q)
    requires forall t :: Ties(cmp, r, t) == Ties(cmp, q, t)
    ensures r == q
  {
    if |r| > 0 {
      SortedHeadsTie(cmp, r, q);
    } else if |q| > 0 {
      SortedHeadsTie(cmp, q, r);
    }
    if |r| > 0 && |q| > 0 {
      var x, y := r[0], q[0];
      TiesCons(cmp, r, x);
      TiesCons(cmp, q, x);
      TiedIsEquivalence(cmp, x, y, x);
      assert Ties(cmp, r, x)[0] == x;
      assert Ties(cmp, q, x)[0] == y;
      assert x == y;
      forall t ensures Ties(cmp, r[1..], t) == Ties(cmp, q[1..], t) {
        TiesCons(cmp, r, t);
        TiesCons(cmp, q, t);
        var h := if cmp(x, t) == 0 then [x] else [];
        assert Ties(cmp, r[1..], t) == Ties(cmp, r, t)[|h|..];
        assert Ties(cmp, q[1..], t) == Ties(cmp, q, t)[|h|..];
      }
      assert Sorted(cmp, r[1..]);
      assert Sorted(cmp, q[1..]);
      SortedTiesDetermine(cmp, r[1..], q[1..]);
      assert r == [x] + r[1..] && q == [y] + q[1..];
    }
  }

  /** `Sort` is the only stable sorted arrangement of its input. */
  lemma SortIsUnique<T(!new)>(cmp: (T, T) -> int, s: seq<T>, r: seq<T>)
    requires ValidComparator(cmp)
    requires Sorted(cmp, r) && Stable(cmp, s, r)
    ensures r == Sort(cmp, s)
  {
    SortedTiesDetermine(cmp, r, Sort(cmp, s));
  }
}
