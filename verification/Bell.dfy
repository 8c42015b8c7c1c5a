/** The bell: CRM replies and notifications as one paged list, src/lib/notifications.ts. */
module Bell {
  import opened Days
  import opened Sorting
  import opened Feeds

  const PAGE: nat := 25

  /** A touch or a notification; its key is (createdAt, id), then 1 for a touch and 0 for a notification. */
  datatype Row = Reply(text: string) | Notice(text: string)

  ghost predicate ValidSources(replies: seq<Item<Row>>, notices: seq<Item<Row>>) {
    && Descending(replies) && Descending(notices)
    && (forall i :: 0 <= i < |replies| ==> replies[i].key.minor == 1)
    && (forall i :: 0 <= i < |notices| ==> notices[i].key.minor == 0)
    && OncePerId(replies) && OncePerId(notices)
  }

  /** Ids are primary keys: no two rows of one table share theirs. */
  ghost predicate OncePerId(s: seq<Item<Row>>) {
    forall i, j :: 0 <= i < j < |s| ==> s[i].key.major != s[j].key.major
  }

  /** The order the code compares by: instant, then id; it does not see which table a row is from. */
  predicate SameMoment(a: Key, b: Key) {
    a.at == b.at && a.major == b.major
  }

  predicate Sooner(a: Key, b: Key) {
    a.at > b.at || (a.at == b.at && a.major > b.major)
  }

  function BellOrder(): (Item<Row>, Item<Row>) -> bool {
    (x: Item<Row>, y: Item<Row>) => !Sooner(y.key, x.key)
  }

  /** before: the rows a cursor lets through, in either table. */
  function After(c: Option<Key>): Item<Row> -> bool {
    (x: Item<Row>) => c.None? || Sooner(c.value, x.key)
  }

  /** Everything past a cursor, in the bell's order. */
  ghost function Waiting(replies: seq<Item<Row>>, notices: seq<Item<Row>>, c: Option<Key>): seq<Item<Row>> {
    Filter(Merge(replies, notices), After(c))
  }

  /**
   * listNotifications: one more than a page from each table, sorted together and cut. The page is
   * the first rows of all that still waits, and it has a cursor, its last row, exactly when more wait.
   */
  method ListNotifications(replies: seq<Item<Row>>, notices: seq<Item<Row>>, c: Option<Key>) returns (p: Page<Row>)
    requires ValidSources(replies, notices)
    ensures p.items == Take(Waiting(replies, notices, c), PAGE)
    ensures p.next == if |Waiting(replies, notices, c)| > PAGE then Some(Waiting(replies, notices, c)[PAGE - 1].key) else None
  {
    hide Filter, Merge, Descending, ValidSources;
    var touches, rows := Take(Filter(replies, After(c)), PAGE + 1), Take(Filter(notices, After(c)), PAGE + 1);
    var merged := Sort(BellOrder(), touches + rows);
    var page := Take(merged, PAGE);
    p := Page(page, if |merged| > PAGE then Some(page[|page| - 1].key) else None);
    BellPageIsFront(replies, notices, c);
  }

  function BellPage(replies: seq<Item<Row>>, notices: seq<Item<Row>>, c: Option<Key>): Page<Row> {
    var merged := Sort(BellOrder(), Take(Filter(replies, After(c)), PAGE + 1) + Take(Filter(notices, After(c)), PAGE + 1));
    var items := Take(merged, PAGE);
    Page(items, if |merged| > PAGE then Some(items[PAGE - 1].key) else None)
  }

  // ---------------------------------------------------------------- one page

  /** Two comparisons that agree on every pair, in the order given, sort alike. */
  lemma {:induction false} SortSame<T>(p: (T, T) -> bool, q: (T, T) -> bool, s: seq<T>)
    requires forall i, j :: 0 <= i < j < |s| ==> p(s[i], s[j]) == q(s[i], s[j])
    ensures Sort(p, s) == Sort(q, s)
  {
    if s != [] {
      var n := |s| - 1;
      SortSame(p, q, s[..n]);
      SortKeeps(q, s[..n]);
      forall i | 0 <= i < |Sort(q, s[..n])|
        ensures p(Sort(q, s[..n])[i], s[n]) == q(Sort(q, s[..n])[i], s[n])
      {
        assert Sort(q, s[..n])[i] in multiset(s[..n]);
      }
      InsertSame(p, q, s[n], Sort(q, s[..n]));
    }
  }

  lemma {:induction false} InsertSame<T>(p: (T, T) -> bool, q: (T, T) -> bool, x: T, s: seq<T>)
    requires forall i :: 0 <= i < |s| ==> p(s[i], x) == q(s[i], x)
    ensures Insert(p, x, s) == Insert(q, x, s)
  {
    if s != [] && !p(s[|s| - 1], x) {
      InsertSame(p, q, x, s[..|s| - 1]);
    }
  }

  /** Replies first, then notices: the sort is stable, so a tie keeps the reply in front. */
  lemma {:induction false} TiesKeepOrder(a: seq<Item<Row>>, b: seq<Item<Row>>)
    requires ValidSources(a, b)
    ensures Sort(BellOrder(), a + b) == Sort(NewestFirst(), a + b)
  {
    var s := a + b;
    forall i, j | 0 <= i < j < |s|
      ensures BellOrder()(s[i], s[j]) == NewestFirst()(s[i], s[j])
    {
      if j < |a| {
        assert a[i].key.major != a[j].key.major;
      } else if i >= |a| {
        assert b[i - |a|].key.major != b[j - |a|].key.major;
      }
    }
    SortSame(BellOrder(), NewestFirst(), s);
  }

  /** Cutting the sources leaves them valid. */
  lemma {:induction false} StillValid(a: seq<Item<Row>>, b: seq<Item<Row>>, c: Option<Key>, n: nat)
    requires ValidSources(a, b)
    ensures ValidSources(Filter(a, After(c)), Filter(b, After(c)))
    ensures ValidSources(Take(Filter(a, After(c)), n), Take(Filter(b, After(c)), n))
    ensures Apart(Filter(a, After(c)), Filter(b, After(c))) && Apart(a, b)
  {
    FilterDescends(a, After(c));
    FilterDescends(b, After(c));
    OnceFiltered(a, After(c), 1);
    OnceFiltered(b, After(c), 0);
  }

  lemma {:induction false} OnceFiltered(s: seq<Item<Row>>, keep: Item<Row> -> bool, minor: nat)
    requires OncePerId(s) && forall i :: 0 <= i < |s| ==> s[i].key.minor == minor
    ensures OncePerId(Filter(s, keep)) && forall i :: 0 <= i < |Filter(s, keep)| ==> Filter(s, keep)[i].key.minor == minor
  {
    if s != [] {
      var rest := Filter(s[1..], keep);
      OnceFiltered(s[1..], keep, minor);
      forall i | 0 <= i < |rest|
        ensures rest[i].key.major != s[0].key.major
      {
        FilterMember(s[1..], keep, rest[i]);
      }
    }
  }

  lemma {:induction false} BellPageIsFront(replies: seq<Item<Row>>, notices: seq<Item<Row>>, c: Option<Key>)
    requires ValidSources(replies, notices)
    ensures var p, w := BellPage(replies, notices, c), Waiting(replies, notices, c);
      && p.items == Take(w, PAGE)
      && p.next == if |w| > PAGE then Some(w[PAGE - 1].key) else None
  {
    hide Filter, Merge, ValidSources, Descending, Apart;
    StillValid(replies, notices, c, PAGE + 1);
    var a, b := Filter(replies, After(c)), Filter(notices, After(c));
    TiesKeepOrder(Take(a, PAGE + 1), Take(b, PAGE + 1));
    SourcesDescend(a, b);
    SourcesDescend(replies, notices);
    PageIsFront(a, b, PAGE);
    FilterOfMerge(replies, notices, After(c));
  }

  lemma {:induction false} SourcesDescend(a: seq<Item<Row>>, b: seq<Item<Row>>)
    requires ValidSources(a, b)
    ensures Descending(a) && Descending(b)
  {
  }

  // ---------------------------------------------------------------- following the cursors

  /** What the reader sees of a list that each page's last row cuts, whole moments at a time. */
  ghost function Read(w: seq<Item<Row>>): seq<Item<Row>>
    decreases |w|
  {
    if |w| <= PAGE then w
    else
      FilterShrinks(w, PAGE - 1);
      w[..PAGE] + Read(Filter(w, After(Some(w[PAGE - 1].key))))
  }

  lemma {:induction false} FilterShrinks(w: seq<Item<Row>>, i: nat)
    requires i < |w|
    ensures |Filter(w, After(Some(w[i].key)))| < |w|
  {
    if i > 0 {
      FilterShrinks2(w[1..], w[i].key, i - 1);
    } else {
      FilterAtMost(w[1..], After(Some(w[0].key)));
    }
  }

  lemma {:induction false} FilterShrinks2(w: seq<Item<Row>>, k: Key, i: nat)
    requires i < |w| && w[i].key == k
    ensures |Filter(w, After(Some(k)))| < |w|
  {
    if i > 0 {
      FilterShrinks2(w[1..], k, i - 1);
    } else {
      FilterAtMost(w[1..], After(Some(k)));
    }
  }

  lemma {:induction false} FilterAtMost(w: seq<Item<Row>>, keep: Item<Row> -> bool)
    ensures |Filter(w, keep)| <= |w|
  {
    if w != [] {
      FilterAtMost(w[1..], keep);
    }
  }

  /** Resuming after a row leaves what is behind it, unless the next row is of the very same moment. */
  lemma {:induction false} ResumesBehind(w: seq<Item<Row>>, i: nat)
    requires Descending(w) && i < |w|
    ensures var rest := Filter(w, After(Some(w[i].key)));
      if i + 1 < |w| && SameMoment(w[i].key, w[i + 1].key) then |rest| < |w| - i - 1 else rest == w[i + 1..]
  {
    if i > 0 {
      ResumesBehind(w[1..], i - 1);
      assert w[1..][i - 1 + 1..] == w[i + 1..];
    } else if 1 < |w| && SameMoment(w[0].key, w[1].key) {
      FilterAtMost(w[2..], After(Some(w[0].key)));
      assert w[1..][1..] == w[2..];
    } else {
      forall j | 0 <= j < |w[1..]|
        ensures After(Some(w[0].key))(w[1..][j])
      {
        assert w[1..][j] == w[j + 1];
      }
      FilterAll(w[1..], After(Some(w[0].key)));
    }
  }

  lemma {:induction false} ReadAtMost(w: seq<Item<Row>>)
    requires Descending(w)
    ensures |Read(w)| <= |w|
    decreases |w|
  {
    hide Filter, Descending;
    if |w| > PAGE {
      var k := w[PAGE - 1].key;
      ResumesBehind(w, PAGE - 1);
      FilterDescends(w, After(Some(k)));
      ReadAtMost(Filter(w, After(Some(k))));
    }
  }

  /** No page ends between two rows of the very same moment. */
  ghost predicate CutsCleanly(w: seq<Item<Row>>) {
    forall m: nat :: 1 <= m && PAGE * m < |w| ==> !SameMoment(w[PAGE * m - 1].key, w[PAGE * m].key)
  }

  /** The reader sees the whole list exactly when no page ends between two rows of the same moment. */
  lemma {:induction false} ReadsAllIfCutCleanly(w: seq<Item<Row>>)
    requires Descending(w)
    ensures Read(w) == w <==> CutsCleanly(w)
    decreases |w|
  {
    hide Filter, Descending, CutsCleanly, SameMoment;
    if |w| <= PAGE {
      ShortIsClean(w);
    } else {
      var rest := Filter(w, After(Some(w[PAGE - 1].key)));
      ResumesBehind(w, PAGE - 1);
      FilterDescends(w, After(Some(w[PAGE - 1].key)));
      FirstCut(w);
      if SameMoment(w[PAGE - 1].key, w[PAGE].key) {
        ReadAtMost(rest);
        assert |Read(w)| < |w|;
      } else {
        ReadsAllIfCutCleanly(rest);
        assert w == w[..PAGE] + rest;
        assert Read(w) == w <==> Read(rest) == rest;
      }
    }
  }

  lemma {:induction false} ShortIsClean(w: seq<Item<Row>>)
    requires |w| <= PAGE
    ensures CutsCleanly(w)
  {
  }

  lemma {:induction false} FirstCut(w: seq<Item<Row>>)
    requires |w| > PAGE
    ensures CutsCleanly(w) <==> !SameMoment(w[PAGE - 1].key, w[PAGE].key) && CutsCleanly(w[PAGE..])
  {
    hide SameMoment;
    if CutsCleanly(w) {
      assert !SameMoment(w[PAGE * 1 - 1].key, w[PAGE * 1].key);
      forall m: nat | 1 <= m && PAGE * m < |w[PAGE..]|
        ensures !SameMoment(w[PAGE..][PAGE * m - 1].key, w[PAGE..][PAGE * m].key)
      {
        assert !SameMoment(w[PAGE * (m + 1) - 1].key, w[PAGE * (m + 1)].key);
      }
    }
    if !SameMoment(w[PAGE - 1].key, w[PAGE].key) && CutsCleanly(w[PAGE..]) {
      forall m: nat | 1 <= m && PAGE * m < |w|
        ensures !SameMoment(w[PAGE * m - 1].key, w[PAGE * m].key)
      {
        if m > 1 {
          assert !SameMoment(w[PAGE..][PAGE * (m - 1) - 1].key, w[PAGE..][PAGE * (m - 1)].key);
        }
      }
    }
  }

  lemma {:induction false} WaitingNext(replies: seq<Item<Row>>, notices: seq<Item<Row>>, c: Option<Key>)
    requires ValidSources(replies, notices)
    ensures var p, w := BellPage(replies, notices, c), Waiting(replies, notices, c);
      && Descending(w) && Descending(Merge(replies, notices))
      && (p.next.Some? ==>
          && |w| > PAGE && p.next.value == w[PAGE - 1].key
          && Waiting(replies, notices, p.next) == Filter(w, After(p.next)) && |Waiting(replies, notices, p.next)| < |w|)
  {
    hide Filter, Merge, BellPage;
    var p, w, all := BellPage(replies, notices, c), Waiting(replies, notices, c), Merge(replies, notices);
    BellPageIsFront(replies, notices, c);
    StillValid(replies, notices, c, 0);
    MergeDescends(replies, notices);
    FilterDescends(all, After(c));
    if p.next.Some? {
      FilterMember(all, After(c), w[PAGE - 1]);
      FilterTwice(all, After(c), After(p.next));
      FilterSame(all, Both(After(c), After(p.next)), After(p.next));
      FilterShrinks(w, PAGE - 1);
    }
  }

  /** All the pages a reader sees who keeps following `next`. */
  ghost function Followed(replies: seq<Item<Row>>, notices: seq<Item<Row>>, c: Option<Key>): seq<Item<Row>>
    requires ValidSources(replies, notices)
    decreases |Waiting(replies, notices, c)|
  {
    WaitingNext(replies, notices, c);
    var p := BellPage(replies, notices, c);
    p.items + (if p.next.Some? then Followed(replies, notices, p.next) else [])
  }

  lemma {:induction false} FollowedIsRead(replies: seq<Item<Row>>, notices: seq<Item<Row>>, c: Option<Key>)
    requires ValidSources(replies, notices)
    ensures Followed(replies, notices, c) == Read(Waiting(replies, notices, c))
    decreases |Waiting(replies, notices, c)|
  {
    hide Filter, BellPage, Waiting;
    WaitingNext(replies, notices, c);
    BellPageIsFront(replies, notices, c);
    var p := BellPage(replies, notices, c);
    if p.next.Some? {
      FollowedIsRead(replies, notices, p.next);
    }
  }

  /**
   * Following the bell's cursors shows every row once and in order exactly when no page ends between
   * a reply and a notice created at the same instant with the same id. Ids that differ across the
   * two tables always suffice.
   */
  lemma {:induction false} BellShowsAll(replies: seq<Item<Row>>, notices: seq<Item<Row>>)
    requires ValidSources(replies, notices)
    ensures Followed(replies, notices, None) == Merge(replies, notices) <==> CutsCleanly(Merge(replies, notices))
    ensures (forall i, j :: 0 <= i < |replies| && 0 <= j < |notices| ==> replies[i].key.major != notices[j].key.major)
      ==> Followed(replies, notices, None) == Merge(replies, notices)
  {
    hide Filter, Merge, BellPage, Read, CutsCleanly, Followed, ValidSources, Descending;
    var all := Merge(replies, notices);
    WaitingNext(replies, notices, None);
    FilterAll(all, After(None));
    FollowedIsRead(replies, notices, None);
    ReadsAllIfCutCleanly(all);
    if forall i, j :: 0 <= i < |replies| && 0 <= j < |notices| ==> replies[i].key.major != notices[j].key.major {
      DistinctIsClean(replies, notices);
    }
  }

  lemma {:induction false} DistinctIsClean(replies: seq<Item<Row>>, notices: seq<Item<Row>>)
    requires ValidSources(replies, notices)
    requires forall i, j :: 0 <= i < |replies| && 0 <= j < |notices| ==> replies[i].key.major != notices[j].key.major
    ensures CutsCleanly(Merge(replies, notices))
  {
    hide Merge, Filter;
    var all := Merge(replies, notices);
    MergeHolds(replies, notices);
    StillValid(replies, notices, None, 0);
    MergeDescends(replies, notices);
    forall m: nat | 1 <= m && PAGE * m < |all|
      ensures !SameMoment(all[PAGE * m - 1].key, all[PAGE * m].key)
    {
      var x, y := all[PAGE * m - 1], all[PAGE * m];
      assert x in multiset(all) && y in multiset(all);
      NotSameMoment(replies, notices, x, y);
    }
  }

  lemma {:induction false} NotSameMoment(replies: seq<Item<Row>>, notices: seq<Item<Row>>, x: Item<Row>, y: Item<Row>)
    requires ValidSources(replies, notices) && x.key != y.key
    requires forall i, j :: 0 <= i < |replies| && 0 <= j < |notices| ==> replies[i].key.major != notices[j].key.major
    requires x in multiset(replies) + multiset(notices) && y in multiset(replies) + multiset(notices)
    ensures !SameMoment(x.key, y.key)
  {
    assert x in replies || x in notices;
    assert y in replies || y in notices;
  }

  lemma {:induction false} MergeWithOldest(a: seq<Item<Row>>, y: Item<Row>)
    requires forall i :: 0 <= i < |a| ==> Newer(a[i].key, y.key)
    ensures Merge(a, [y]) == a + [y]
  {
    if a != [] {
      MergeWithOldest(a[1..], y);
      assert a + [y] == [a[0]] + (a[1..] + [y]);
    }
  }

  /** Twenty-five replies and a notice made with the last reply's instant and id. */
  function Replies(): (r: seq<Item<Row>>)
    ensures |r| == PAGE
  {
    seq(PAGE, i requires 0 <= i < PAGE => Item(Key(PAGE - i, PAGE - i, 1), Reply("")))
  }

  /** Ids that repeat across the two tables can lose a row: the notice behind the page's last reply is never shown. */
  lemma {:induction false} BellCanLoseARow()
    ensures exists notices :: ValidSources(Replies(), notices) && Followed(Replies(), notices, None) != Merge(Replies(), notices)
  {
    hide Followed, Merge, Filter, Read, Sort;
    var notices := [Item(Key(1, 1, 0), Notice(""))];
    MergeWithOldest(Replies(), notices[0]);
    var all := Merge(Replies(), notices);
    BellShowsAll(Replies(), notices);
    assert SameMoment(all[PAGE * 1 - 1].key, all[PAGE * 1].key);
  }
}
