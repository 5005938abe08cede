/** Facts about sequences that several components share. */
module Sequences {

  predicate Distinct<T(==)>(s: seq<T>) {
    forall i, j :: 0 <= i < j < |s| ==> s[i] != s[j]
  }

  function Elements<T>(s: seq<T>): set<T> {
    set x | x in s
  }

  /** Python's `list(range(n))`. */
  function Range(n: nat): seq<nat> {
    if n == 0 then [] else Range(n - 1) + [n - 1]
  }

  lemma {:induction false} RangeIsAll(n: nat)
    ensures |Range(n)| == n && Distinct(Range(n))
    ensures forall d :: d in Range(n) <==> 0 <= d < n
  {
    if n > 0 {
      RangeIsAll(n - 1);
      ConcatDistinct(Range(n - 1), [n - 1]);
    }
  }

  /** `a` keeps some elements of `b`, in their order. */
  predicate Subsequence<T(==)>(a: seq<T>, b: seq<T>) {
    if a == [] then true
    else if b == [] then false
    else if a[|a| - 1] == b[|b| - 1] then Subsequence(a[..|a| - 1], b[..|b| - 1])
    else Subsequence(a, b[..|b| - 1])
  }

  /** Keeping one more element, or leaving one out that is not kept, keeps the order. */
  lemma SubsequenceNext<T>(a: seq<T>, b: seq<T>)
    requires b != [] && Subsequence(a, b[..|b| - 1])
    ensures Subsequence(a + [b[|b| - 1]], b)
    ensures b[|b| - 1] !in a ==> Subsequence(a, b)
  {
    assert (a + [b[|b| - 1]])[..|a|] == a;
    if a != [] {
      assert a[|a| - 1] in a;
    }
  }

  /** `kept` holds exactly the elements of `all` that pass the test, as often and in the order they occur there. */
  ghost predicate KeptInOrder<T(!new)>(kept: seq<T>, all: seq<T>, passes: T -> bool) {
    && Subsequence(kept, all)
    && (forall x :: x in kept ==> passes(x))
    && (forall x :: passes(x) ==> multiset(kept)[x] == multiset(all)[x])
  }

  lemma NothingKept<T(!new)>(passes: T -> bool)
    ensures KeptInOrder([], [], passes)
  {
  }

  lemma KeptNext<T(!new)>(kept: seq<T>, all: seq<T>, passes: T -> bool)
    requires all != [] && KeptInOrder(kept, all[..|all| - 1], passes)
    ensures KeptInOrder(kept + (if passes(all[|all| - 1]) then [all[|all| - 1]] else []), all, passes)
  {
    var k := |all| - 1;
    assert all == all[..k] + [all[k]];
    assert kept + [] == kept;
    SubsequenceNext(kept, all);
  }

  ghost predicate TotalPreorder<T(!new)>(le: (T, T) -> bool) {
    && (forall x, y :: le(x, y) || le(y, x))
    && (forall x, y, z :: le(x, y) && le(y, z) ==> le(x, z))
  }

  ghost predicate Sorted<T(!new)>(s: seq<T>, le: (T, T) -> bool) {
    forall i, j :: 0 <= i < j < |s| ==> le(s[i], s[j])
  }

  function Insert<T>(x: T, s: seq<T>, le: (T, T) -> bool): seq<T> {
    if s == [] then [x]
    else if le(x, s[0]) then [x] + s
    else [s[0]] + Insert(x, s[1..], le)
  }

  /** Python's stable `sorted`: equal elements keep their order. */
  function SortBy<T>(s: seq<T>, le: (T, T) -> bool): seq<T> {
    if s == [] then [] else Insert(s[0], SortBy(s[1..], le), le)
  }

  lemma {:induction false} InsertKeeps<T>(x: T, s: seq<T>, le: (T, T) -> bool)
    ensures multiset(Insert(x, s, le)) == multiset(s) + multiset{x}
  {
    if s != [] && !le(x, s[0]) {
      InsertKeeps(x, s[1..], le);
      assert s == [s[0]] + s[1..];
    } else {
      assert Insert(x, s, le) == [x] + s;
    }
  }

  lemma {:induction false} InsertSorted<T(!new)>(x: T, s: seq<T>, le: (T, T) -> bool)
    requires TotalPreorder(le) && Sorted(s, le)
    ensures Sorted(Insert(x, s, le), le)
  {
    if s != [] && !le(x, s[0]) {
      var rest := Insert(x, s[1..], le);
      InsertSorted(x, s[1..], le);
      InsertKeeps(x, s[1..], le);
      forall j | 0 <= j < |rest| ensures le(s[0], rest[j]) {
        assert rest[j] in multiset(rest);
        assert rest[j] == x || rest[j] in s[1..];
      }
    }
  }

  lemma {:induction false} SortBySorts<T(!new)>(s: seq<T>, le: (T, T) -> bool)
    requires TotalPreorder(le)
    ensures Sorted(SortBy(s, le), le)
    ensures multiset(SortBy(s, le)) == multiset(s)
    ensures |SortBy(s, le)| == |s|
  {
    if s != [] {
      SortBySorts(s[1..], le);
      InsertSorted(s[0], SortBy(s[1..], le), le);
      InsertKeeps(s[0], SortBy(s[1..], le), le);
      assert s == [s[0]] + s[1..];
      assert |multiset(SortBy(s, le))| == |multiset(s)|;
    }
  }

  /** The elements that the order cannot tell from `y`, in their order. */
  function Equivalents<T>(s: seq<T>, le: (T, T) -> bool, y: T): seq<T> {
    if s == [] then []
    else (if le(s[0], y) && le(y, s[0]) then [s[0]] else []) + Equivalents(s[1..], le, y)
  }

  lemma {:induction false} InsertIsStable<T(!new)>(x: T, s: seq<T>, le: (T, T) -> bool, y: T)
    requires TotalPreorder(le)
    ensures Equivalents(Insert(x, s, le), le, y) == Equivalents([x] + s, le, y)
  {
    assert ([x] + s)[1..] == s;
    if s != [] && !le(x, s[0]) {
      InsertIsStable(x, s[1..], le, y);
      assert ([x] + s[1..])[1..] == s[1..];
      assert ([s[0]] + Insert(x, s[1..], le))[1..] == Insert(x, s[1..], le);
      assert !(le(x, y) && le(y, x) && le(s[0], y) && le(y, s[0]));
    }
  }

  /** Sorting is stable: elements of equal rank keep their order. */
  lemma {:induction false} SortByIsStable<T(!new)>(s: seq<T>, le: (T, T) -> bool, y: T)
    requires TotalPreorder(le)
    ensures Equivalents(SortBy(s, le), le, y) == Equivalents(s, le, y)
  {
    if s != [] {
      SortByIsStable(s[1..], le, y);
      InsertIsStable(s[0], SortBy(s[1..], le), le, y);
      assert ([s[0]] + SortBy(s[1..], le))[1..] == SortBy(s[1..], le);
    }
  }

  /** A list and its last element. */
  lemma LastElement<T>(s: seq<T>)
    requires s != []
    ensures var k := |s| - 1;
            && s == s[..k] + [s[k]]
            && (forall x :: x in s <==> x in s[..k] || x == s[k])
            && (Distinct(s) <==> Distinct(s[..k]) && s[k] !in s[..k])
  {
    var k := |s| - 1;
    assert s == s[..k] + [s[k]];
    if Distinct(s[..k]) && s[k] !in s[..k] {
      forall i, j | 0 <= i < j < |s| ensures s[i] != s[j] {
        assert s[i] == s[..k][i];
        assert j < k ==> s[j] == s[..k][j];
      }
    }
  }

  lemma SameMultisetSameElements<T>(a: seq<T>, b: seq<T>)
    requires multiset(a) == multiset(b)
    ensures forall x :: x in a <==> x in b
    ensures |a| == |b|
  {
    forall x ensures x in a <==> x in b {
      assert x in a <==> x in multiset(a);
      assert x in b <==> x in multiset(b);
    }
    assert |multiset(a)| == |a|;
  }

  /** The last element of a list stands somewhere in every permutation, and the rest are permutations again. */
  lemma PermutationWithoutLast<T>(a: seq<T>, b: seq<T>) returns (p: nat)
    requires multiset(a) == multiset(b) && a != []
    ensures p < |b| && b[p] == a[|a| - 1]
    ensures multiset(a[..|a| - 1]) == multiset(b[..p] + b[p + 1..])
  {
    var k := |a| - 1;
    SameMultisetSameElements(a, b);
    assert a[k] in b;
    p :| 0 <= p < |b| && b[p] == a[k];
    TakeOut(a, k);
    TakeOut(b, p);
    assert a[..k] + a[k + 1..] == a[..k];
  }

  lemma TakeOut<T>(s: seq<T>, p: nat)
    requires p < |s|
    ensures multiset(s[..p] + s[p + 1..]) == multiset(s) - multiset{s[p]}
  {
    assert s == s[..p] + [s[p]] + s[p + 1..];
  }

  lemma {:induction false} DistinctCount<T>(s: seq<T>, x: T)
    requires Distinct(s)
    ensures multiset(s)[x] == if x in s then 1 else 0
  {
    if s != [] {
      DistinctCount(s[1..], x);
      assert s == [s[0]] + s[1..];
    }
  }

  lemma {:induction false} CountDistinct<T>(s: seq<T>)
    requires forall x :: multiset(s)[x] <= 1
    ensures Distinct(s)
  {
    if s != [] {
      assert s == [s[0]] + s[1..];
      forall x ensures multiset(s[1..])[x] <= 1 {
        assert multiset(s)[x] >= multiset(s[1..])[x];
      }
      CountDistinct(s[1..]);
      forall i, j | 0 <= i < j < |s| ensures s[i] != s[j] {
        if i == 0 {
          assert multiset(s)[s[0]] <= 1;
          assert s[j] == s[1..][j - 1];
        } else {
          assert s[i] == s[1..][i - 1] && s[j] == s[1..][j - 1];
        }
      }
    }
  }

  /** Two duplicate-free lists of the same elements are permutations of each other. */
  lemma DistinctSameElements<T(!new)>(a: seq<T>, b: seq<T>)
    requires Distinct(a) && Distinct(b)
    requires forall x :: x in a <==> x in b
    ensures multiset(a) == multiset(b)
  {
    forall x ensures multiset(a)[x] == multiset(b)[x] {
      DistinctCount(a, x);
      DistinctCount(b, x);
    }
  }

  lemma PermutationDistinct<T>(a: seq<T>, b: seq<T>)
    requires multiset(a) == multiset(b) && Distinct(a)
    ensures Distinct(b)
  {
    forall x ensures multiset(b)[x] <= 1 {
      DistinctCount(a, x);
    }
    CountDistinct(b);
  }

  lemma ConcatDistinct<T>(a: seq<T>, b: seq<T>)
    requires Distinct(a) && Distinct(b)
    requires forall x :: x in a ==> x !in b
    ensures Distinct(a + b)
  {
    var s := a + b;
    forall i, j | 0 <= i < j < |s| ensures s[i] != s[j] {
      if i < |a| <= j {
        assert s[i] in a && s[j] in b;
      }
    }
  }

  /** Python's `list(s)` of a set: every element once, in no particular order. */
  method ListOfSet<T(==)>(s: set<T>) returns (r: seq<T>)
    ensures Distinct(r) && Elements(r) == s
  {
    r := [];
    var rest := s;
    while rest != {}
      invariant Distinct(r) && rest <= s
      invariant forall x :: x in r <==> x in s && x !in rest
      decreases rest
    {
      var x :| x in rest;
      r := r + [x];
      rest := rest - {x};
    }
  }
}
