/**
 * `Array.prototype.sort` with a comparator, as a stable insertion sort.  The
 * comparator is given as `leq(a, b)`: "a may stay before b", which is
 * `compare(a, b) <= 0` (a `NaN` comparison counts as 0, so as `true`).
 */
module Sorting {
  import Seqs

  /** `s` is in `leq` order: every element may stay before every later one. */
  predicate SortedBy<T>(s: seq<T>, leq: (T, T) -> bool) {
    forall i, j :: 0 <= i < j < |s| ==> leq(s[i], s[j])
  }

  /** `leq` is total and transitive on the elements of `s`. */
  ghost predicate TotalPreorderOn<T>(s: seq<T>, leq: (T, T) -> bool) {
    && (forall a, b :: a in s && b in s ==> leq(a, b) || leq(b, a))
    && (forall a, b, c :: a in s && b in s && c in s && leq(a, b) && leq(b, c) ==> leq(a, c))
  }

  /** Inserts `x` after the trailing elements of `s` that may stay before it. */
  function Insert<T>(x: T, s: seq<T>, leq: (T, T) -> bool): (r: seq<T>)
    ensures multiset(r) == multiset(s) + multiset{x}
  {
    if s == [] then [x]
    else if leq(s[|s| - 1], x) then s + [x]
    else
      var init := s[..|s| - 1];
      assert s == init + [s[|s| - 1]];
      Insert(x, init, leq) + [s[|s| - 1]]
  }

  /** `[...s].sort(compare)`: the elements of `s`, inserted one by one from the left. */
  function SortBy<T>(s: seq<T>, leq: (T, T) -> bool): (r: seq<T>)
    ensures multiset(r) == multiset(s)
  {
    if s == [] then []
    else
      assert s == s[..|s| - 1] + [s[|s| - 1]];
      Insert(s[|s| - 1], SortBy(s[..|s| - 1], leq), leq)
  }

  /** Inserting into an ordered sequence keeps it ordered. */
  lemma {:induction false} InsertSorted<T>(x: T, s: seq<T>, leq: (T, T) -> bool)
    requires SortedBy(s, leq)
    requires TotalPreorderOn(s + [x], leq)
    ensures SortedBy(Insert(x, s, leq), leq)
  {
    if s != [] {
      var last := s[|s| - 1];
      var init := s[..|s| - 1];
      assert last in s + [x] && x in s + [x];
      if leq(last, x) {
        var r := s + [x];
        forall i, j | 0 <= i < j < |r| ensures leq(r[i], r[j]) {
          if j == |s| && i < |s| - 1 {
            assert s[i] in s + [x];
            assert leq(s[i], last);
          }
        }
      } else {
        assert leq(x, last);
        assert TotalPreorderOn(init + [x], leq) by {
          forall a | a in init + [x] ensures a in s + [x] {
            if a != x {
              assert a in init;
              assert s == init + [last];
            }
          }
        }
        InsertSorted(x, init, leq);
        var front := Insert(x, init, leq);
        forall e | e in front ensures leq(e, last) {
          assert e in multiset(front);
          if e != x {
            assert e in multiset(init);
            var i :| 0 <= i < |init| && init[i] == e;
            assert s[i] == e;
          }
        }
        var r := front + [last];
        forall i, j | 0 <= i < j < |r| ensures leq(r[i], r[j]) {
          if j == |front| {
            assert r[i] in front;
          } else {
            assert r[i] == front[i] && r[j] == front[j];
          }
        }
      }
    }
  }

  /** On elements `leq` orders totally, the sort leaves them in `leq` order. */
  lemma {:induction false} SortBySorted<T>(s: seq<T>, leq: (T, T) -> bool)
    requires TotalPreorderOn(s, leq)
    ensures SortedBy(SortBy(s, leq), leq)
  {
    if s != [] {
      var init, x := s[..|s| - 1], s[|s| - 1];
      assert s == init + [x];
      assert TotalPreorderOn(init, leq) by {
        forall a | a in init ensures a in s {
        }
      }
      SortBySorted(init, leq);
      var sorted := SortBy(init, leq);
      assert TotalPreorderOn(sorted + [x], leq) by {
        forall a | a in sorted + [x] ensures a in s {
          if a != x {
            assert a in multiset(sorted);
            assert a in multiset(init);
          }
        }
      }
      InsertSorted(x, sorted, leq);
    }
  }

  /** The elements `leq` ties with `x`: each may stay before the other. */
  function TiedWith<T>(leq: (T, T) -> bool, x: T): T -> bool {
    y => leq(x, y) && leq(y, x)
  }

  /**
   * Inserting `e` keeps, among the elements tied with `x`, the order they had
   * in `t`, with `e` after them: `e` only ever passes elements strictly after it.
   */
  lemma {:induction false} FilterInsert<T>(e: T, t: seq<T>, leq: (T, T) -> bool, x: T)
    requires forall i :: 0 <= i < |t| && leq(t[i], x) && leq(x, e) ==> leq(t[i], e)
    ensures Seqs.Filter(Insert(e, t, leq), TiedWith(leq, x))
         == Seqs.Filter(t, TiedWith(leq, x)) + Seqs.Filter([e], TiedWith(leq, x))
  {
    var tied := TiedWith(leq, x);
    if t == [] {
    } else if leq(t[|t| - 1], e) {
      Seqs.FilterConcat(t, [e], tied);
    } else {
      var init, last := t[..|t| - 1], t[|t| - 1];
      assert t == init + [last];
      FilterInsert(e, init, leq, x);
      Seqs.FilterConcat(Insert(e, init, leq), [last], tied);
      Seqs.FilterConcat(init, [last], tied);
      assert !(tied(last) && tied(e));
    }
  }

  /**
   * The sort is stable: elements the comparator ties keep their relative
   * order, whatever the order of the others.
   */
  lemma {:induction false} SortByStable<T>(s: seq<T>, leq: (T, T) -> bool, x: T)
    requires TotalPreorderOn(s + [x], leq)
    ensures Seqs.Filter(SortBy(s, leq), TiedWith(leq, x)) == Seqs.Filter(s, TiedWith(leq, x))
  {
    if s != [] {
      var init, e := s[..|s| - 1], s[|s| - 1];
      assert s == init + [e];
      assert TotalPreorderOn(init + [x], leq) by {
        forall a | a in init + [x] ensures a in s + [x] {
          if a in init {
            var i :| 0 <= i < |init| && init[i] == a;
            assert s[i] == a;
          }
        }
      }
      SortByStable(init, leq, x);
      var sorted := SortBy(init, leq);
      forall i | 0 <= i < |sorted| && leq(sorted[i], x) && leq(x, e) ensures leq(sorted[i], e) {
        assert sorted[i] in multiset(init);
        var k :| 0 <= k < |init| && init[k] == sorted[i];
        assert s[k] in s + [x] && x in s + [x] && e in s + [x];
      }
      FilterInsert(e, sorted, leq, x);
      Seqs.FilterConcat(init, [e], TiedWith(leq, x));
    }
  }

  /** Equal multisets with equal first elements have equal rests. */
  lemma MultisetRest<T>(a: seq<T>, b: seq<T>)
    requires a != [] && b != [] && a[0] == b[0] && multiset(a) == multiset(b)
    ensures multiset(a[1..]) == multiset(b[1..])
  {
    assert a == [a[0]] + a[1..] && b == [b[0]] + b[1..];
    assert multiset(a[1..]) == multiset(a) - multiset{a[0]};
    assert multiset(b[1..]) == multiset(b) - multiset{b[0]};
  }

  /** Two orderings of the same elements in `leq` order start alike when `leq` ties no two different elements. */
  lemma SortedHeadsAgree<T>(a: seq<T>, b: seq<T>, leq: (T, T) -> bool)
    requires a != [] && multiset(a) == multiset(b)
    requires SortedBy(a, leq) && SortedBy(b, leq)
    requires forall u, v :: u in a && v in a && leq(u, v) && leq(v, u) ==> u == v
    ensures b != [] && a[0] == b[0]
  {
    assert a[0] in multiset(b) && a[0] in b;
    var j :| 0 <= j < |b| && b[j] == a[0];
    assert b[0] in multiset(a) && b[0] in a;
    var k :| 0 <= k < |a| && a[k] == b[0];
    if j != 0 && k != 0 {
      assert leq(b[0], b[j]) && leq(a[0], a[k]);
    }
  }

  /**
   * Two orderings of the same elements that are both in `leq` order are equal
   * when `leq` ties no two different elements.
   */
  lemma {:induction false} SortedPermutationsAgree<T>(a: seq<T>, b: seq<T>, leq: (T, T) -> bool)
    requires multiset(a) == multiset(b)
    requires SortedBy(a, leq) && SortedBy(b, leq)
    requires forall u, v :: u in a && v in a && leq(u, v) && leq(v, u) ==> u == v
    ensures a == b
    decreases |a|
  {
    if a == [] {
      assert |b| == |multiset(b)| == 0;
    } else {
      SortedHeadsAgree(a, b, leq);
      MultisetRest(a, b);
      forall u, v | u in a[1..] && v in a[1..] && leq(u, v) && leq(v, u) ensures u == v {
        assert u in a && v in a;
      }
      SortedPermutationsAgree(a[1..], b[1..], leq);
      assert a == [a[0]] + a[1..] && b == [b[0]] + b[1..];
    }
  }

  /** When every pair may stay as it is, the sort changes nothing. */
  lemma {:induction false} SortByKeepsTies<T>(s: seq<T>, leq: (T, T) -> bool)
    requires forall i, j :: 0 <= i < j < |s| ==> leq(s[i], s[j])
    ensures SortBy(s, leq) == s
  {
    if s != [] {
      var init, x := s[..|s| - 1], s[|s| - 1];
      SortByKeepsTies(init, leq);
      assert s == init + [x];
      if init != [] {
        assert leq(init[|init| - 1], x);
      }
    }
  }
}
