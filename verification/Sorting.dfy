/**
 * A stable sort by a comparison, as Array.prototype.sort gives, and what it guarantees: the same
 * elements, in order, for any comparison that is total and transitive. Queues, paces, outreaches and
 * feeds are all put in order by it.
 */
module Sorting {

  /** `leq` orders any two values, and transitively. */
  ghost predicate TotalOrder<T(!new)>(leq: (T, T) -> bool) {
    && (forall x, y :: leq(x, y) || leq(y, x))
    && (forall x, y, z :: leq(x, y) && leq(y, z) ==> leq(x, z))
  }

  ghost predicate SortedBy<T>(leq: (T, T) -> bool, s: seq<T>) {
    forall i, j :: 0 <= i < j < |s| ==> leq(s[i], s[j])
  }

  /** Put `x` after everything it does not come strictly before. */
  function Insert<T>(leq: (T, T) -> bool, x: T, s: seq<T>): (r: seq<T>)
    ensures |r| == |s| + 1
  {
    if s == [] then [x]
    else if leq(s[|s| - 1], x) then s + [x]
    else Insert(leq, x, s[..|s| - 1]) + [s[|s| - 1]]
  }

  function Sort<T>(leq: (T, T) -> bool, s: seq<T>): (r: seq<T>)
    ensures |r| == |s|
  {
    if s == [] then [] else Insert(leq, s[|s| - 1], Sort(leq, s[..|s| - 1]))
  }

  /** A sequence is its front and its last. */
  lemma {:induction false} FrontAndLast<T>(s: seq<T>)
    requires s != []
    ensures multiset(s) == multiset(s[..|s| - 1]) + multiset{s[|s| - 1]}
  {
    assert s == s[..|s| - 1] + [s[|s| - 1]];
  }

  lemma {:induction false} InsertKeeps<T>(leq: (T, T) -> bool, x: T, s: seq<T>)
    ensures multiset(Insert(leq, x, s)) == multiset(s) + multiset{x}
  {
    if s != [] && !leq(s[|s| - 1], x) {
      InsertKeeps(leq, x, s[..|s| - 1]);
      assert s == s[..|s| - 1] + [s[|s| - 1]];
    }
  }

  lemma {:induction false} InsertSorts<T(!new)>(leq: (T, T) -> bool, x: T, s: seq<T>)
    requires TotalOrder(leq) && SortedBy(leq, s)
    ensures SortedBy(leq, Insert(leq, x, s))
  {
    if s != [] {
      var n := |s| - 1;
      if !leq(s[n], x) {
        InsertSorts(leq, x, s[..n]);
        InsertKeeps(leq, x, s[..n]);
        var front := Insert(leq, x, s[..n]);
        forall i | 0 <= i < |front|
          ensures leq(front[i], s[n])
        {
          assert front[i] in multiset(front);
          if front[i] != x {
            assert front[i] in s[..n];
          }
        }
      } else {
        forall i | 0 <= i < |s|
          ensures leq(s[i], x)
        {
          if i < n {
            assert leq(s[i], s[n]) && leq(s[n], x);
          }
        }
      }
    }
  }

  lemma {:induction false} SortKeeps<T>(leq: (T, T) -> bool, s: seq<T>)
    ensures multiset(Sort(leq, s)) == multiset(s)
  {
    hide Insert;
    if s != [] {
      var n := |s| - 1;
      SortKeeps(leq, s[..n]);
      InsertKeeps(leq, s[n], Sort(leq, s[..n]));
      FrontAndLast(s);
    }
  }

  lemma {:induction false} SortSorts<T(!new)>(leq: (T, T) -> bool, s: seq<T>)
    requires TotalOrder(leq)
    ensures SortedBy(leq, Sort(leq, s))
  {
    if s != [] {
      SortSorts(leq, s[..|s| - 1]);
      InsertSorts(leq, s[|s| - 1], Sort(leq, s[..|s| - 1]));
    }
  }

  /** `s` has no two different elements that tie. */
  ghost predicate NoTies<T(!new)>(leq: (T, T) -> bool, s: seq<T>) {
    forall x, y :: x in s && y in s && leq(x, y) && leq(y, x) ==> x == y
  }

  /** Where no two different elements tie, there is only one way to put them in order. */
  lemma {:induction false} OneSorting<T(!new)>(leq: (T, T) -> bool, a: seq<T>, b: seq<T>)
    requires multiset(a) == multiset(b) && SortedBy(leq, a) && SortedBy(leq, b) && NoTies(leq, a)
    ensures a == b
  {
    hide SortedBy, NoTies;
    SameElements(a, b);
    if a != [] {
      var n := |a| - 1;
      LastsAgree(leq, a, b);
      FrontsAgree(a, b);
      FrontIsSorted(leq, a);
      FrontIsSorted(leq, b);
      assert NoTies(leq, a[..n]) by { FrontHasNoTies(leq, a); }
      OneSorting(leq, a[..n], b[..n]);
      assert a == a[..n] + [a[n]] && b == b[..n] + [b[n]];
    }
  }

  lemma {:induction false} SameElements<T>(a: seq<T>, b: seq<T>)
    requires multiset(a) == multiset(b)
    ensures |a| == |b| && forall x :: x in a <==> x in b
  {
    assert |multiset(a)| == |a| && |multiset(b)| == |b|;
    forall x
      ensures x in a <==> x in b
    {
      assert x in multiset(a) <==> x in multiset(b);
    }
  }

  lemma {:induction false} LastsAgree<T(!new)>(leq: (T, T) -> bool, a: seq<T>, b: seq<T>)
    requires |a| == |b| >= 1 && (forall x :: x in a <==> x in b)
    requires SortedBy(leq, a) && SortedBy(leq, b) && NoTies(leq, a)
    ensures a[|a| - 1] == b[|b| - 1]
  {
    var n := |a| - 1;
    assert a[n] in b && b[n] in a;
    var i :| 0 <= i < |b| && b[i] == a[n];
    var j :| 0 <= j < |a| && a[j] == b[n];
    if i < n && j < n {
      assert leq(b[i], b[n]) && leq(a[j], a[n]);
    }
  }

  lemma {:induction false} FrontIsSorted<T(!new)>(leq: (T, T) -> bool, a: seq<T>)
    requires a != [] && SortedBy(leq, a)
    ensures SortedBy(leq, a[..|a| - 1])
  {
  }

  lemma {:induction false} FrontHasNoTies<T(!new)>(leq: (T, T) -> bool, a: seq<T>)
    requires a != [] && NoTies(leq, a)
    ensures NoTies(leq, a[..|a| - 1])
  {
  }

  lemma {:induction false} FrontsAgree<T>(a: seq<T>, b: seq<T>)
    requires a != [] && b != [] && multiset(a) == multiset(b) && a[|a| - 1] == b[|b| - 1]
    ensures multiset(a[..|a| - 1]) == multiset(b[..|b| - 1])
  {
    FrontAndLast(a);
    FrontAndLast(b);
    SameWithout(multiset(a[..|a| - 1]), multiset(b[..|b| - 1]), a[|a| - 1]);
  }

  lemma {:induction false} SameWithout<T>(a: multiset<T>, b: multiset<T>, x: T)
    requires a + multiset{x} == b + multiset{x}
    ensures a == b
  {
    assert (a + multiset{x}) - multiset{x} == a;
    assert (b + multiset{x}) - multiset{x} == b;
  }
}
