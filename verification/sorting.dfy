/** `Array.prototype.sort` with a comparator, as a stable insertion sort over
    a "less than or equal" relation. ECMAScript requires `sort` to be stable,
    and a comparator `cmp` corresponds to `le(a, b) == (cmp(a, b) <= 0)`. */
module Sorting {

  import opened Lists

  /** `le` is total and transitive: what a consistent comparator gives. */
  ghost predicate TotalPreorder<T(!new)>(le: (T, T) -> bool)
  {
    && (forall a, b :: le(a, b) || le(b, a))
    && (forall a, b, c :: le(a, b) && le(b, c) ==> le(a, c))
  }

  predicate Sorted<T>(s: seq<T>, le: (T, T) -> bool)
  {
    forall i, j :: 0 <= i < j < |s| ==> le(s[i], s[j])
  }

  /** Places `x` after every element not greater than it, so that elements
      that compare equal keep their order. */
  function Insert<T>(x: T, s: seq<T>, le: (T, T) -> bool): (r: seq<T>)
    ensures multiset(r) == multiset(s) + multiset{x}
    ensures |r| == |s| + 1
  {
    if |s| == 0 then [x]
    else if !le(s[0], x) then [x] + s
    else
      assert s == [s[0]] + s[1..];
      [s[0]] + Insert(x, s[1..], le)
  }

  /** The sorted permutation of `s`. */
  function SortBy<T(!new)>(s: seq<T>, le: (T, T) -> bool): (r: seq<T>)
    ensures multiset(r) == multiset(s)
    ensures |r| == |s|
    ensures TotalPreorder(le) ==> Sorted(r, le)
  {
    if |s| == 0 then []
    else
      var front := SortBy(s[..|s| - 1], le);
      assert s == s[..|s| - 1] + [s[|s| - 1]];
      assert TotalPreorder(le) ==> Sorted(Insert(s[|s| - 1], front, le), le) by {
        if TotalPreorder(le) { InsertSorted(s[|s| - 1], front, le); }
      }
      Insert(s[|s| - 1], front, le)
  }

  lemma {:induction false} InsertSorted<T(!new)>(x: T, s: seq<T>, le: (T, T) -> bool)
    requires TotalPreorder(le)
    requires Sorted(s, le)
    ensures Sorted(Insert(x, s, le), le)
  {
    if |s| > 0 && le(s[0], x) {
      InsertSorted(x, s[1..], le);
      var r := Insert(x, s, le);
      var t := Insert(x, s[1..], le);
      assert r == [s[0]] + t;
      forall j | 0 < j < |r| ensures le(r[0], r[j]) {
        assert r[j] in multiset(t);
        assert r[j] == x || r[j] in multiset(s[1..]);
        if r[j] != x {
          assert r[j] in s[1..];
        }
      }
    }
  }

  /** The test for comparing equal to `x` under `le`. */
  function Tied<T>(x: T, le: (T, T) -> bool): T -> bool
  {
    e => le(e, x) && le(x, e)
  }

  /** The sort is stable: the elements that compare equal to any `x` come
      out in the order they went in. */
  lemma {:induction false} SortByStable<T(!new)>(x: T, s: seq<T>, le: (T, T) -> bool)
    requires TotalPreorder(le)
    ensures Filter(Tied(x, le), SortBy(s, le)) == Filter(Tied(x, le), s)
  {
    if |s| > 0 {
      var init := s[..|s| - 1];
      var y := s[|s| - 1];
      assert s == init + [y];
      SortByStable(x, init, le);
      InsertTies(x, y, SortBy(init, le), le);
      FilterSnoc(Tied(x, le), init, y);
    }
  }

  /** Inserting `y` into a sorted list puts it after every element it ties
      with. */
  lemma {:induction false} InsertTies<T(!new)>(x: T, y: T, t: seq<T>, le: (T, T) -> bool)
    requires TotalPreorder(le)
    requires Sorted(t, le)
    ensures Filter(Tied(x, le), Insert(y, t, le)) ==
              Filter(Tied(x, le), t) + (if Tied(x, le)(y) then [y] else [])
  {
    var tied := Tied(x, le);
    if |t| == 0 {
      assert Insert(y, t, le) == [y];
      assert [y][1..] == [];
    } else if !le(t[0], y) {
      var r := [y] + t;
      assert Insert(y, t, le) == r;
      assert r[0] == y && r[1..] == t;
      if tied(y) {
        forall e | e in t ensures !tied(e) {
          var k :| 0 <= k < |t| && t[k] == e;
          assert le(t[0], e);
        }
        FilterEmpty(tied, t);
      }
    } else {
      assert Sorted(t[1..], le) by {
        forall i, j | 0 <= i < j < |t[1..]| ensures le(t[1..][i], t[1..][j]) {
          assert t[1..][i] == t[i + 1] && t[1..][j] == t[j + 1];
        }
      }
      InsertTies(x, y, t[1..], le);
      var r := [t[0]] + Insert(y, t[1..], le);
      assert Insert(y, t, le) == r;
      assert r[0] == t[0] && r[1..] == Insert(y, t[1..], le);
    }
  }

  /** Two sorted permutations of each other agree, provided no two distinct
      elements compare equal. */
  lemma {:induction false} SortedUnique<T>(x: seq<T>, y: seq<T>, le: (T, T) -> bool)
    requires forall a, b :: a in x && b in x && le(a, b) && le(b, a) ==> a == b
    requires Sorted(x, le) && Sorted(y, le)
    requires multiset(x) == multiset(y)
    ensures x == y
  {
    if |x| > 0 {
      assert |y| == |multiset(y)| == |x|;
      SameHead(x, y, le);
      TailsAgreeOn(x, y, le);
      SortedUnique(x[1..], y[1..], le);
      assert x == [x[0]] + x[1..] && y == [y[0]] + y[1..];
    }
  }

  /** With equal heads, the tails of two sorted permutations are sorted
      permutations of each other, and the tail of `x` keeps the absence of
      ties. */
  lemma {:induction false} TailsAgreeOn<T>(x: seq<T>, y: seq<T>, le: (T, T) -> bool)
    requires forall a, b :: a in x && b in x && le(a, b) && le(b, a) ==> a == b
    requires Sorted(x, le) && Sorted(y, le)
    requires multiset(x) == multiset(y) && |x| > 0 && |y| > 0 && x[0] == y[0]
    ensures forall a, b :: a in x[1..] && b in x[1..] && le(a, b) && le(b, a) ==> a == b
    ensures Sorted(x[1..], le) && Sorted(y[1..], le)
    ensures multiset(x[1..]) == multiset(y[1..])
  {
    TailMultiset(x);
    TailMultiset(y);
    forall a, b | a in x[1..] && b in x[1..] && le(a, b) && le(b, a) ensures a == b {
      assert a in x && b in x;
    }
  }

  lemma {:induction false} SameHead<T>(x: seq<T>, y: seq<T>, le: (T, T) -> bool)
    requires forall a, b :: a in x && b in x && le(a, b) && le(b, a) ==> a == b
    requires Sorted(x, le) && Sorted(y, le)
    requires multiset(x) == multiset(y) && |x| > 0 && |y| > 0
    ensures x[0] == y[0]
  {
    assert x[0] in multiset(y) && y[0] in multiset(x);
    var j :| 0 <= j < |y| && y[j] == x[0];
    var i :| 0 <= i < |x| && x[i] == y[0];
    if i > 0 && j > 0 {
      assert le(y[0], y[j]) && le(x[0], x[i]);
    }
  }

  lemma {:induction false} TailMultiset<T>(x: seq<T>)
    requires |x| > 0
    ensures multiset(x[1..]) == multiset(x) - multiset{x[0]}
  {
    assert x == [x[0]] + x[1..];
  }

  /** The order `sort()` without a comparator puts strings in: character by
      character, a proper prefix first. */
  predicate LexLe(a: string, b: string)
  {
    |a| == 0 || (|b| > 0 && (a[0] < b[0] || (a[0] == b[0] && LexLe(a[1..], b[1..]))))
  }

  lemma {:induction false} LexTotal(a: string, b: string)
    ensures LexLe(a, b) || LexLe(b, a)
  {
    if |a| > 0 && |b| > 0 && a[0] == b[0] {
      LexTotal(a[1..], b[1..]);
    }
  }

  lemma {:induction false} LexTransitive(a: string, b: string, c: string)
    requires LexLe(a, b) && LexLe(b, c)
    ensures LexLe(a, c)
  {
    if |a| > 0 && a[0] == b[0] && b[0] == c[0] {
      LexTransitive(a[1..], b[1..], c[1..]);
    }
  }

  /** Only equal strings are each at most the other. */
  lemma {:induction false} LexAntisymmetric(a: string, b: string)
    requires LexLe(a, b) && LexLe(b, a)
    ensures a == b
  {
    if |a| > 0 {
      LexAntisymmetric(a[1..], b[1..]);
      assert a == [a[0]] + a[1..] && b == [b[0]] + b[1..];
    }
  }

  /** The string order is a total preorder, so `SortBy` sorts by it. */
  lemma {:induction false} LexTotalPreorder()
    ensures TotalPreorder(LexLe)
  {
    forall a, b ensures LexLe(a, b) || LexLe(b, a) {
      LexTotal(a, b);
    }
    forall a, b, c | LexLe(a, b) && LexLe(b, c) ensures LexLe(a, c) {
      LexTransitive(a, b, c);
    }
  }

  /** Filtering a sorted list leaves it sorted. */
  lemma {:induction false} FilterSorted<T>(keep: T -> bool, xs: seq<T>, le: (T, T) -> bool)
    requires Sorted(xs, le)
    ensures Sorted(Filter(keep, xs), le)
  {
    if |xs| > 0 {
      assert Sorted(xs[1..], le) by {
        forall i, j | 0 <= i < j < |xs[1..]| ensures le(xs[1..][i], xs[1..][j]) {
          assert xs[1..][i] == xs[i + 1] && xs[1..][j] == xs[j + 1];
        }
      }
      FilterSorted(keep, xs[1..], le);
      FilterMembers(keep, xs[1..]);
      var rest := Filter(keep, xs[1..]);
      forall j | 0 <= j < |rest| ensures le(xs[0], rest[j]) {
        assert rest[j] in xs[1..];
      }
    }
  }
}
