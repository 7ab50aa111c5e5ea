/** `Array.prototype.filter` on sequences, and the order-keeping sublist
    relation it produces. */
module Lists {

  /** `a` is `b` with some elements left out, the rest in their order. */
  predicate IsSubsequence<T(==)>(a: seq<T>, b: seq<T>)
  {
    |a| == 0 || (|b| > 0 && if a[0] == b[0] then IsSubsequence(a[1..], b[1..]) else IsSubsequence(a, b[1..]))
  }

  /** `xs.filter(keep)`: every element kept passes the test. */
  function Filter<T>(keep: T -> bool, xs: seq<T>): (kept: seq<T>)
    ensures |kept| <= |xs|
    ensures forall i :: 0 <= i < |kept| ==> keep(kept[i])
  {
    if |xs| == 0 then []
    else if keep(xs[0]) then [xs[0]] + Filter(keep, xs[1..])
    else Filter(keep, xs[1..])
  }

  /** The filter keeps exactly the elements that pass, each as often as it
      occurs, in their original order. */
  lemma {:induction false} FilterKeeps<T>(keep: T -> bool, xs: seq<T>)
    ensures forall x :: keep(x) ==> multiset(Filter(keep, xs))[x] == multiset(xs)[x]
    ensures forall x :: !keep(x) ==> multiset(Filter(keep, xs))[x] == 0
    ensures IsSubsequence(Filter(keep, xs), xs)
  {
    if |xs| > 0 {
      var rest := Filter(keep, xs[1..]);
      FilterKeeps(keep, xs[1..]);
      assert xs == [xs[0]] + xs[1..];
      if !keep(xs[0]) {
        assert |rest| > 0 ==> rest[0] != xs[0];
      }
    }
  }

  /** Only elements of the input are kept. */
  lemma {:induction false} FilterMembers<T>(keep: T -> bool, xs: seq<T>)
    ensures forall x :: x in Filter(keep, xs) ==> x in xs
  {
    if |xs| > 0 {
      FilterMembers(keep, xs[1..]);
    }
  }

  /** Nothing is kept exactly when no element passes. */
  lemma {:induction false} FilterEmpty<T>(keep: T -> bool, xs: seq<T>)
    ensures Filter(keep, xs) == [] <==> forall x :: x in xs ==> !keep(x)
  {
    if |xs| > 0 {
      FilterEmpty(keep, xs[1..]);
      assert forall x :: x in xs <==> x == xs[0] || x in xs[1..];
    }
  }

  /** Filtering a longer list filters the new last element on its own. */
  lemma {:induction false} FilterSnoc<T>(keep: T -> bool, xs: seq<T>, x: T)
    ensures Filter(keep, xs + [x]) == Filter(keep, xs) + (if keep(x) then [x] else [])
  {
    if |xs| > 0 {
      FilterSnoc(keep, xs[1..], x);
      assert (xs + [x])[1..] == xs[1..] + [x];
      assert (xs + [x])[0] == xs[0];
    } else {
      assert xs + [x] == [x];
      assert [x][1..] == [];
    }
  }

  /** No element occurs twice. */
  predicate Distinct<T(==)>(s: seq<T>)
  {
    forall i, j :: 0 <= i < j < |s| ==> s[i] != s[j]
  }

  /** In a list without repetitions every element is counted at most once. */
  lemma {:induction false} DistinctCounts<T>(s: seq<T>)
    requires Distinct(s)
    ensures forall x :: multiset(s)[x] <= 1
  {
    if |s| > 0 {
      assert Distinct(s[1..]) by {
        forall i, j | 0 <= i < j < |s[1..]| ensures s[1..][i] != s[1..][j] {
          assert s[1..][i] == s[i + 1] && s[1..][j] == s[j + 1];
        }
      }
      DistinctCounts(s[1..]);
      assert s == [s[0]] + s[1..];
      assert s[0] !in s[1..] by {
        forall j | 0 <= j < |s[1..]| ensures s[1..][j] != s[0] {
          assert s[1..][j] == s[j + 1];
        }
      }
    }
  }

  /** Two equal elements at different places are counted twice. */
  lemma {:induction false} TwoCopies<T>(s: seq<T>, i: nat, j: nat)
    requires i < j < |s| && s[i] == s[j]
    ensures multiset(s)[s[i]] >= 2
  {
    assert s == s[..j] + s[j..];
    assert s[..j][i] == s[i];
    assert s[j..][0] == s[j];
    assert multiset(s) == multiset(s[..j]) + multiset(s[j..]);
  }

  /** A list whose elements are each counted at most once has no
      repetitions. */
  lemma {:induction false} CountsDistinct<T>(s: seq<T>)
    requires forall x :: multiset(s)[x] <= 1
    ensures Distinct(s)
  {
    forall i, j | 0 <= i < j < |s| ensures s[i] != s[j] {
      if s[i] == s[j] {
        TwoCopies(s, i, j);
      }
    }
  }
}
