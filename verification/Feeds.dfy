/** Two sources read newest first and paged as one list. */
module Feeds {
  // The merge behind Activity (src/lib/activity-query.ts) and the bell (src/lib/notifications.ts), for items
  // of any kind that are told apart by their keys.

  import opened Days
  import opened Sorting

  /**
   * Where an item stands: its instant, then two tie-breakers. In Activity they are the place of the
   * id's prefix and the id; in the bell, the id and the order the sources are listed in.
   */
  datatype Key = Key(at: int, major: nat, minor: nat)

  datatype Item<+T> = Item(key: Key, row: T)

  predicate Newer(a: Key, b: Key) {
    a.at > b.at || (a.at == b.at && (a.major > b.major || (a.major == b.major && a.minor > b.minor)))
  }

  predicate Descending<T>(s: seq<Item<T>>) {
    forall i, j :: 0 <= i < j < |s| ==> Newer(s[i].key, s[j].key)
  }

  function Filter<T>(s: seq<Item<T>>, keep: Item<T> -> bool): seq<Item<T>> {
    if s == [] then [] else (if keep(s[0]) then [s[0]] else []) + Filter(s[1..], keep)
  }

  function Take<T>(s: seq<Item<T>>, n: nat): (r: seq<Item<T>>)
    ensures r <= s
    ensures |r| == if |s| <= n then |s| else n
  {
    if |s| <= n then s else s[..n]
  }

  /** The one list both sources make together. */
  function Merge<T>(a: seq<Item<T>>, b: seq<Item<T>>): (m: seq<Item<T>>)
    ensures |m| == |a| + |b|
  {
    if a == [] then b
    else if b == [] then a
    else if Newer(a[0].key, b[0].key) then [a[0]] + Merge(a[1..], b)
    else [b[0]] + Merge(a, b[1..])
  }

  /** No key is in both sources. */
  predicate Apart<T>(a: seq<Item<T>>, b: seq<Item<T>>) {
    forall i, j :: 0 <= i < |a| && 0 <= j < |b| ==> a[i].key != b[j].key
  }

  function NewestFirst<T>(): (Item<T>, Item<T>) -> bool {
    (x: Item<T>, y: Item<T>) => !Newer(y.key, x.key)
  }

  /** A page of two sources, each already cut to what comes after the cursor: one more than the page from each, merged and cut. */
  datatype Page<+T> = Page(items: seq<Item<T>>, next: Option<Key>)

  function PageOf<T>(a: seq<Item<T>>, b: seq<Item<T>>, limit: nat): Page<T>
    requires limit >= 1
  {
    var merged := Sort(NewestFirst(), Take(a, limit + 1) + Take(b, limit + 1));
    var items := Take(merged, limit);
    Page(items, if |merged| > limit then Some(items[limit - 1].key) else None)
  }

  // ---------------------------------------------------------------- the merge is the sorted list

  lemma {:induction false} MergeDescends<T>(a: seq<Item<T>>, b: seq<Item<T>>)
    requires Descending(a) && Descending(b) && Apart(a, b)
    ensures Descending(Merge(a, b))
  {
    if a != [] && b != [] {
      if Newer(a[0].key, b[0].key) {
        MergeDescends(a[1..], b);
        LeadsMerge(a[0], a[1..], b);
      } else {
        MergeDescends(a, b[1..]);
        LeadsMerge(b[0], a, b[1..]);
      }
    }
  }

  lemma {:induction false} MergeHolds<T>(a: seq<Item<T>>, b: seq<Item<T>>)
    ensures multiset(Merge(a, b)) == multiset(a) + multiset(b)
  {
    if a != [] && b != [] {
      if Newer(a[0].key, b[0].key) {
        MergeHolds(a[1..], b);
        assert a == [a[0]] + a[1..];
      } else {
        MergeHolds(a, b[1..]);
        assert b == [b[0]] + b[1..];
      }
    }
  }

  /** Whatever is newer than both lists is newer than their merge. */
  lemma {:induction false} LeadsMerge<T>(x: Item<T>, a: seq<Item<T>>, b: seq<Item<T>>)
    requires forall i :: 0 <= i < |a| ==> Newer(x.key, a[i].key)
    requires forall i :: 0 <= i < |b| ==> Newer(x.key, b[i].key)
    ensures forall i :: 0 <= i < |a| + |b| ==> Newer(x.key, Merge(a, b)[i].key)
  {
    if a != [] && b != [] {
      if Newer(a[0].key, b[0].key) {
        LeadsMerge(x, a[1..], b);
      } else {
        LeadsMerge(x, a, b[1..]);
      }
    }
  }

  /** Two newest-first orders of one list begin alike, ... */
  lemma {:induction false} SameHead<T>(a: seq<Item<T>>, b: seq<Item<T>>)
    requires Descending(a) && multiset(a) == multiset(b) && a != [] && b != []
    requires SortedBy(NewestFirst(), b)
    ensures a[0] == b[0]
  {
    assert b[0] in multiset(a) && a[0] in multiset(b);
    var i :| 0 <= i < |a| && a[i] == b[0];
    var j :| 0 <= j < |b| && b[j] == a[0];
    assert j > 0 ==> NewestFirst()(b[0], b[j]);
  }

  /** ... and so are the same. */
  lemma {:induction false} OneOrder<T>(a: seq<Item<T>>, b: seq<Item<T>>)
    requires Descending(a) && multiset(a) == multiset(b)
    requires SortedBy(NewestFirst(), b)
    ensures a == b
  {
    assert |a| == |multiset(a)| == |multiset(b)| == |b|;
    if a != [] {
      SameHead(a, b);
      SameTail(a, b);
      OneOrder(a[1..], b[1..]);
    }
  }

  lemma {:induction false} SameTail<T>(a: seq<Item<T>>, b: seq<Item<T>>)
    requires multiset(a) == multiset(b) && a != [] && b != [] && a[0] == b[0]
    ensures multiset(a[1..]) == multiset(b[1..])
  {
    assert a == [a[0]] + a[1..] && b == [b[0]] + b[1..];
    assert multiset(a[1..]) == multiset(a) - multiset{a[0]};
    assert multiset(b[1..]) == multiset(b) - multiset{b[0]};
  }

  lemma {:induction false} SortIsMerge<T(!new)>(a: seq<Item<T>>, b: seq<Item<T>>)
    requires Descending(a) && Descending(b) && Apart(a, b)
    ensures Sort(NewestFirst(), a + b) == Merge(a, b)
  {
    MergeDescends(a, b);
    MergeHolds(a, b);
    SortKeeps(NewestFirst(), a + b);
    SortSorts(NewestFirst(), a + b);
    OneOrder(Merge(a, b), Sort(NewestFirst(), a + b));
  }

  /** Enough from each source is enough for the page. */
  lemma {:induction false} MergeOfEnough<T>(a: seq<Item<T>>, b: seq<Item<T>>, n: nat, x: nat, y: nat)
    requires n <= x && n <= y
    ensures Take(Merge(Take(a, x), Take(b, y)), n) == Take(Merge(a, b), n)
  {
    if n > 0 && a != [] && b != [] {
      if Newer(a[0].key, b[0].key) {
        MergeOfEnough(a[1..], b, n - 1, x - 1, y);
        TakeTail(a, x);
        TakeOne(a[0], Merge(a[1..], b), n);
        TakeOne(a[0], Merge(Take(a[1..], x - 1), Take(b, y)), n);
      } else {
        MergeOfEnough(a, b[1..], n - 1, x, y - 1);
        TakeTail(b, y);
        TakeOne(b[0], Merge(a, b[1..]), n);
        TakeOne(b[0], Merge(Take(a, x), Take(b[1..], y - 1)), n);
      }
    }
  }

  lemma {:induction false} TakeTail<T>(s: seq<Item<T>>, n: nat)
    requires s != [] && n >= 1
    ensures Take(s, n) == [s[0]] + Take(s[1..], n - 1) && Take(s, n)[1..] == Take(s[1..], n - 1)
  {
  }

  lemma {:induction false} TakeOne<T>(x: Item<T>, s: seq<Item<T>>, n: nat)
    requires n >= 1
    ensures Take([x] + s, n) == [x] + Take(s, n - 1)
  {
  }

  /** What is taken keeps its order and stays apart. */
  lemma {:induction false} TakenFine<T>(a: seq<Item<T>>, b: seq<Item<T>>, n: nat)
    requires Descending(a) && Descending(b) && Apart(a, b)
    ensures Descending(Take(a, n)) && Descending(Take(b, n)) && Apart(Take(a, n), Take(b, n))
  {
  }

  /** A page is the front of the merged list, and says where the rest begins exactly when there is more. */
  lemma {:induction false} PageIsFront<T(!new)>(a: seq<Item<T>>, b: seq<Item<T>>, limit: nat)
    requires Descending(a) && Descending(b) && Apart(a, b) && limit >= 1
    ensures var p := PageOf(a, b, limit); var feed := Merge(a, b);
      && p.items == Take(feed, limit)
      && p.next == if |feed| > limit then Some(feed[limit - 1].key) else None
  {
    hide Merge, Descending, Apart, Newer;
    TakenFine(a, b, limit + 1);
    SortIsMerge(Take(a, limit + 1), Take(b, limit + 1));
    MergeOfEnough(a, b, limit, limit + 1, limit + 1);
    assert |a| + |b| > limit ==> Take(Merge(a, b), limit)[limit - 1] == Merge(a, b)[limit - 1];
  }

  // ---------------------------------------------------------------- filtering and cutting

  lemma {:induction false} FilterMember<T>(s: seq<Item<T>>, keep: Item<T> -> bool, x: Item<T>)
    ensures x in Filter(s, keep) <==> x in s && keep(x)
  {
    if s != [] {
      assert s == [s[0]] + s[1..];
      FilterMember(s[1..], keep, x);
    }
  }

  lemma {:induction false} LeadsFilter<T>(x: Item<T>, s: seq<Item<T>>, keep: Item<T> -> bool)
    requires forall i :: 0 <= i < |s| ==> Newer(x.key, s[i].key)
    ensures forall i :: 0 <= i < |Filter(s, keep)| ==> Newer(x.key, Filter(s, keep)[i].key)
  {
    if s != [] {
      LeadsFilter(x, s[1..], keep);
    }
  }

  lemma {:induction false} FilterDescends<T>(s: seq<Item<T>>, keep: Item<T> -> bool)
    requires Descending(s)
    ensures Descending(Filter(s, keep)) && |Filter(s, keep)| <= |s|
  {
    if s != [] {
      FilterDescends(s[1..], keep);
      LeadsFilter(s[0], s[1..], keep);
    }
  }

  lemma {:induction false} FilteredApart<T>(a: seq<Item<T>>, b: seq<Item<T>>, keep: Item<T> -> bool)
    requires Apart(a, b)
    ensures Apart(Filter(a, keep), Filter(b, keep))
  {
    forall i, j | 0 <= i < |Filter(a, keep)| && 0 <= j < |Filter(b, keep)|
      ensures Filter(a, keep)[i].key != Filter(b, keep)[j].key
    {
      FilterMember(a, keep, Filter(a, keep)[i]);
      FilterMember(b, keep, Filter(b, keep)[j]);
    }
  }

  lemma {:induction false} Associates<T>(a: seq<T>, b: seq<T>, c: seq<T>)
    ensures a + (b + c) == (a + b) + c
  {
  }

  lemma {:induction false} FilterOfSum<T>(a: seq<Item<T>>, b: seq<Item<T>>, keep: Item<T> -> bool)
    ensures Filter(a + b, keep) == Filter(a, keep) + Filter(b, keep)
  {
    if a == [] {
      assert a + b == b;
    } else {
      FilterOfSum(a[1..], b, keep);
      FilterOne(a[0], a[1..] + b, keep);
      assert a + b == [a[0]] + (a[1..] + b);
      Associates(if keep(a[0]) then [a[0]] else [], Filter(a[1..], keep), Filter(b, keep));
    }
  }

  /** Filters that agree on a list give the same list; one filter after another keeps what both keep. */
  lemma {:induction false} FilterSame<T>(s: seq<Item<T>>, p: Item<T> -> bool, q: Item<T> -> bool)
    requires forall x :: x in s ==> p(x) == q(x)
    ensures Filter(s, p) == Filter(s, q)
  {
    if s != [] {
      assert s[0] in s;
      FilterSame(s[1..], p, q);
    }
  }

  function Both<T>(p: Item<T> -> bool, q: Item<T> -> bool): Item<T> -> bool {
    (x: Item<T>) => p(x) && q(x)
  }

  lemma {:induction false} FilterTwice<T>(s: seq<Item<T>>, p: Item<T> -> bool, q: Item<T> -> bool)
    ensures Filter(Filter(s, p), q) == Filter(s, Both(p, q))
  {
    if s != [] {
      FilterTwice(s[1..], p, q);
      FilterOfSum(if p(s[0]) then [s[0]] else [], Filter(s[1..], p), q);
    }
  }

  /** Filtering both sources filters the merged list. */
  lemma {:induction false} FilterOfMerge<T>(a: seq<Item<T>>, b: seq<Item<T>>, keep: Item<T> -> bool)
    requires Descending(a) && Descending(b) && Apart(a, b)
    ensures Merge(Filter(a, keep), Filter(b, keep)) == Filter(Merge(a, b), keep)
  {
    if a != [] && b != [] {
      if Newer(a[0].key, b[0].key) {
        FilterOfMerge(a[1..], b, keep);
        LeadsFilter(a[0], b, keep);
        LeadMerges(a[0], Filter(a[1..], keep), Filter(b, keep));
        assert [] + Filter(a[1..], keep) == Filter(a[1..], keep);
        FilterOne(a[0], Merge(a[1..], b), keep);
      } else {
        FilterOfMerge(a, b[1..], keep);
        LeadsFilter(b[0], a, keep);
        LeadFollows(b[0], Filter(a, keep), Filter(b[1..], keep));
        assert [] + Filter(b[1..], keep) == Filter(b[1..], keep);
        FilterOne(b[0], Merge(a, b[1..]), keep);
      }
    }
  }

  lemma {:induction false} FilterOne<T>(x: Item<T>, s: seq<Item<T>>, keep: Item<T> -> bool)
    ensures Filter([x] + s, keep) == (if keep(x) then [x] else []) + Filter(s, keep)
  {
    assert ([x] + s)[1..] == s;
  }

  lemma {:induction false} LeadMerges<T>(x: Item<T>, a: seq<Item<T>>, b: seq<Item<T>>)
    requires forall i :: 0 <= i < |b| ==> Newer(x.key, b[i].key)
    ensures Merge([x] + a, b) == [x] + Merge(a, b)
  {
    assert ([x] + a)[1..] == a;
    if a == [] && b != [] {
      assert Merge(a, b) == b;
    }
  }

  lemma {:induction false} LeadFollows<T>(x: Item<T>, a: seq<Item<T>>, b: seq<Item<T>>)
    requires forall i :: 0 <= i < |a| ==> Newer(x.key, a[i].key)
    ensures Merge(a, [x] + b) == [x] + Merge(a, b)
  {
    assert ([x] + b)[1..] == b && ([x] + b)[0] == x;
    if a != [] {
      assert !Newer(a[0].key, x.key);
    }
  }

  function Older<T>(k: Key): Item<T> -> bool {
    (x: Item<T>) => Newer(k, x.key)
  }

  /** Everything older than an item of the list is what comes after it. */
  lemma {:induction false} OlderIsRest<T>(feed: seq<Item<T>>, i: nat)
    requires Descending(feed) && i < |feed|
    ensures Filter(feed, Older(feed[i].key)) == feed[i + 1..]
  {
    if i == 0 {
      FilterAll(feed[1..], Older(feed[0].key));
    } else {
      OlderIsRest(feed[1..], i - 1);
      assert feed[1..][i - 1 + 1..] == feed[i + 1..];
    }
  }

  lemma {:induction false} FilterAll<T>(s: seq<Item<T>>, keep: Item<T> -> bool)
    requires forall i :: 0 <= i < |s| ==> keep(s[i])
    ensures Filter(s, keep) == s
  {
    if s != [] {
      FilterAll(s[1..], keep);
    }
  }
}
