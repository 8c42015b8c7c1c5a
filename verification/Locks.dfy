/** Advisory locks, and why waiting never goes round. */
module Locks {
  // The order every transaction takes them in: src/lib/account-lock.ts and the transactions that call it.

  import opened Days

  type Id = nat

  /** Names stand for the hashed keys: account:*, campaign-planner-publication, campaign:*. */
  datatype Lock = Account(id: Id) | Publication | CampaignRow(id: Id)

  function Class(l: Lock): nat {
    match l
    case Account(_) => 0
    case Publication => 1
    case CampaignRow(_) => 2
  }

  function Key(l: Lock): nat {
    if l.Publication? then 0 else l.id
  }

  /** Accounts by id, then the publication lock, then campaigns. */
  predicate Before(a: Lock, b: Lock) {
    Class(a) < Class(b) || (Class(a) == Class(b) && Key(a) < Key(b))
  }

  predicate InOrder(locks: seq<Lock>) {
    forall i, j :: 0 <= i < j < |locks| ==> Before(locks[i], locks[j])
  }

  // ---------------------------------------------------------------- the accounts of one transaction

  function Known(ids: seq<Option<Id>>): set<Id> {
    set i | 0 <= i < |ids| && ids[i].Some? :: ids[i].value
  }

  /** Array.prototype.sort's job, one id at a time. */
  method InsertInOrder(was: seq<Id>, id: Id) returns (order: seq<Id>)
    requires Ascending(was) && id !in was
    ensures Ascending(order)
    ensures forall x: Id :: x in order <==> x in was || x == id
  {
    var k := 0;
    while k < |was| && was[k] < id
      invariant 0 <= k <= |was|
      invariant forall j :: 0 <= j < k ==> was[j] < id
    {
      k := k + 1;
    }
    assert was == was[..k] + was[k..];
    order := was[..k] + [id] + was[k..];
  }

  /** lockAccounts: the ids that are set, each once, in ascending order. */
  method LockAccounts(ids: seq<Option<Id>>) returns (order: seq<Id>)
    ensures Ascending(order)
    ensures forall id: Id :: id in order <==> id in Known(ids)
  {
    order := [];
    for n := 0 to |ids|
      invariant Ascending(order)
      invariant forall id: Id :: id in order <==> id in Known(ids[..n])
    {
      assert Known(ids[..n + 1]) == Known(ids[..n]) + if ids[n].Some? then {ids[n].value} else {};
      if ids[n].Some? && ids[n].value !in order {
        order := InsertInOrder(order, ids[n].value);
      }
    }
    assert ids[..|ids|] == ids;
  }

  /** There is only one such order. */
  lemma {:induction false} OneOrder(a: seq<Id>, b: seq<Id>)
    requires Ascending(a) && Ascending(b) && forall id: Id :: id in a <==> id in b
    ensures a == b
  {
    assert a != [] ==> a[|a| - 1] in b;
    assert b != [] ==> b[|b| - 1] in a;
    if a != [] {
      var m, n := |a| - 1, |b| - 1;
      assert a[m] == b[n];
      forall id: Id
        ensures id in a[..m] <==> id in b[..n]
      {
        Without(a, id);
        Without(b, id);
      }
      OneOrder(a[..m], b[..n]);
    }
  }

  lemma {:induction false} Without(a: seq<Id>, id: Id)
    requires Ascending(a) && a != []
    ensures id in a[..|a| - 1] <==> id in a && id != a[|a| - 1]
  {
  }

  ghost predicate IsLargest(ids: set<Id>, top: Id) {
    top in ids && forall id :: id in ids ==> id <= top
  }

  ghost function SortedIds(ids: set<Id>): (order: seq<Id>)
    ensures Ascending(order)
    ensures forall id: Id :: id in order <==> id in ids
  {
    if ids == {} then []
    else
      LargestExists(ids);
      var top :| IsLargest(ids, top);
      SortedIds(ids - {top}) + [top]
  }

  lemma {:induction false} LargestExists(ids: set<Id>)
    requires ids != {}
    ensures exists top :: IsLargest(ids, top)
  {
    var x :| x in ids;
    var rest := ids - {x};
    if rest == {} {
      assert ids == {x};
      assert IsLargest(ids, x);
    } else {
      LargestExists(rest);
      var y :| IsLargest(rest, y);
      assert ids == rest + {x};
      assert IsLargest(ids, if y < x then x else y);
    }
  }

  ghost function AccountLocks(order: seq<Id>): (locks: seq<Lock>)
    ensures |locks| == |order| && forall i :: 0 <= i < |order| ==> locks[i] == Account(order[i])
  {
    seq(|order|, i requires 0 <= i < |order| => Account(order[i]))
  }

  /** A transaction's whole list: its accounts, then perhaps the publication lock, then perhaps one campaign. */
  ghost function LockList(accounts: set<Id>, publication: bool, campaign: Option<Id>): seq<Lock> {
    AccountLocks(SortedIds(accounts)) + ((if publication then [Publication] else []) + (if campaign.Some? then [CampaignRow(campaign.value)] else []))
  }

  lemma {:induction false} AccountLocksExact(order: seq<Id>, id: Id)
    ensures Account(id) in AccountLocks(order) <==> id in order
  {
    if id in order {
      var i :| 0 <= i < |order| && order[i] == id;
      assert AccountLocks(order)[i] == Account(id);
    }
  }

  lemma {:induction false} LockListHas(accounts: set<Id>, publication: bool, campaign: Option<Id>, id: Id)
    ensures Account(id) in LockList(accounts, publication, campaign) <==> id in accounts
    ensures Publication in LockList(accounts, publication, campaign) <==> publication
    ensures CampaignRow(id) in LockList(accounts, publication, campaign) <==> campaign == Some(id)
  {
    hide AccountLocks;
    AccountLocksExact(SortedIds(accounts), id);
  }

  /** Every transaction takes its locks in the one order. */
  lemma {:induction false} LockListInOrder(accounts: set<Id>, publication: bool, campaign: Option<Id>)
    ensures InOrder(LockList(accounts, publication, campaign))
  {
    hide AccountLocks, SortedIds;
  }

  // ---------------------------------------------------------------- waiting

  /** One open transaction: what it will lock, in order, and how much of it it has. */
  datatype Claim = Claim(locks: seq<Lock>, got: nat)

  type Claims = map<Id, Claim>

  type LockTable = map<Lock, Id>

  /** The table records exactly what the open transactions hold, and each takes its locks in order. */
  ghost predicate Consistent(claims: Claims, table: LockTable) {
    && (forall t :: t in claims ==> claims[t].got <= |claims[t].locks| && InOrder(claims[t].locks))
    && (forall t, k :: t in claims && 0 <= k < claims[t].got ==> claims[t].locks[k] in table && table[claims[t].locks[k]] == t)
    && (forall l :: l in table ==> table[l] in claims && l in claims[table[l]].locks[..claims[table[l]].got])
  }

  predicate Wants(claims: Claims, t: Id, l: Lock) {
    t in claims && claims[t].got < |claims[t].locks| && claims[t].locks[claims[t].got] == l
  }

  predicate WaitsFor(claims: Claims, table: LockTable, a: Id, b: Id) {
    && a in claims && claims[a].got < |claims[a].locks|
    && claims[a].locks[claims[a].got] in table && table[claims[a].locks[claims[a].got]] == b
  }

  /** Whoever waits wants a lock that comes before anything its holder still wants. */
  lemma {:induction false} WaitingClimbs(claims: Claims, table: LockTable, a: Id, b: Id, la: Lock, lb: Lock)
    requires Consistent(claims, table) && WaitsFor(claims, table, a, b)
    requires Wants(claims, a, la) && Wants(claims, b, lb)
    ensures Before(la, lb)
  {
    var k :| 0 <= k < claims[b].got && claims[b].locks[..claims[b].got][k] == la;
  }

  /** A chain of transactions, each waiting for the next. */
  ghost predicate Chain(claims: Claims, table: LockTable, path: seq<Id>) {
    forall i :: 0 <= i < |path| - 1 ==> WaitsFor(claims, table, path[i], path[i + 1])
  }

  lemma {:induction false} ChainClimbs(claims: Claims, table: LockTable, path: seq<Id>, la: Lock, lb: Lock)
    requires Consistent(claims, table) && |path| >= 2 && Chain(claims, table, path)
    requires Wants(claims, path[0], la) && Wants(claims, path[|path| - 1], lb)
    ensures Before(la, lb)
  {
    var n := |path| - 1;
    if n == 1 {
      WaitingClimbs(claims, table, path[0], path[1], la, lb);
    } else {
      assert WaitsFor(claims, table, path[n - 1], path[n]);
      var mid := claims[path[n - 1]].locks[claims[path[n - 1]].got];
      ChainClimbs(claims, table, path[..n], la, mid);
      WaitingClimbs(claims, table, path[n - 1], path[n], mid, lb);
    }
  }

  /** No transaction ever waits, through any number of others, for itself. */
  lemma {:induction false} NoDeadlock(claims: Claims, table: LockTable, path: seq<Id>)
    requires Consistent(claims, table) && |path| >= 2 && Chain(claims, table, path)
    ensures path[0] != path[|path| - 1]
  {
    assert WaitsFor(claims, table, path[0], path[1]);
    if path[0] == path[|path| - 1] {
      var l := claims[path[0]].locks[claims[path[0]].got];
      ChainClimbs(claims, table, path, l, l);
    }
  }

  /** It has all its locks, or its next one is free. */
  predicate CanGoOn(claims: Claims, table: LockTable, t: Id) {
    t in claims && (claims[t].got < |claims[t].locks| ==> claims[t].locks[claims[t].got] !in table)
  }

  /** Those that want a lock later than `l`. */
  ghost function WantingLater(claims: Claims, l: Lock): set<Id> {
    set t | t in claims && claims[t].got < |claims[t].locks| && Before(l, claims[t].locks[claims[t].got])
  }

  /** Following who waits for whom always ends at a transaction that can go on. */
  lemma {:induction false} SomeoneCanGoOn(claims: Claims, table: LockTable, t: Id) returns (u: Id)
    requires Consistent(claims, table) && t in claims
    ensures CanGoOn(claims, table, u)
    decreases if claims[t].got < |claims[t].locks| then |WantingLater(claims, claims[t].locks[claims[t].got])| + 1 else 0
  {
    if CanGoOn(claims, table, t) {
      u := t;
    } else {
      var l := claims[t].locks[claims[t].got];
      var h := table[l];
      if claims[h].got < |claims[h].locks| {
        var next := claims[h].locks[claims[h].got];
        WaitingClimbs(claims, table, t, h, l, next);
        FewerLater(claims, l, next, h);
      }
      u := SomeoneCanGoOn(claims, table, h);
    }
  }

  lemma {:induction false} FewerLater(claims: Claims, l: Lock, next: Lock, h: Id)
    requires Before(l, next) && Wants(claims, h, next)
    ensures |WantingLater(claims, next)| < |WantingLater(claims, l)|
  {
    var fewer, more := WantingLater(claims, next), WantingLater(claims, l);
    assert h in more && h !in fewer && fewer <= more;
    Smaller(fewer, more, h);
  }

  lemma {:induction false} Smaller(a: set<Id>, b: set<Id>, h: Id)
    requires a <= b && h in b && h !in a
    ensures |a| < |b|
  {
    SubsetSize(a, b - {h});
  }

  lemma {:induction false} SubsetSize(a: set<Id>, b: set<Id>)
    requires a <= b
    ensures |a| <= |b|
  {
    if a != {} {
      var x :| x in a;
      SubsetSize(a - {x}, b - {x});
    }
  }

  // ---------------------------------------------------------------- the table stays consistent

  lemma {:induction false} OpeningKeeps(claims: Claims, table: LockTable, t: Id, locks: seq<Lock>)
    requires Consistent(claims, table) && t !in claims && InOrder(locks)
    ensures Consistent(claims[t := Claim(locks, 0)], table)
  {
  }

  lemma {:induction false} TakingKeeps(claims: Claims, table: LockTable, t: Id)
    requires Consistent(claims, table) && t in claims && claims[t].got < |claims[t].locks|
    requires CanGoOn(claims, table, t)
    ensures var c := claims[t];
      Consistent(claims[t := Claim(c.locks, c.got + 1)], table[c.locks[c.got] := t])
  {
    var c := claims[t];
    assert c.locks[..c.got + 1] == c.locks[..c.got] + [c.locks[c.got]];
  }

  ghost function Released(table: LockTable, t: Id): LockTable {
    map l | l in table && table[l] != t :: table[l]
  }

  lemma {:induction false} ClosingKeeps(claims: Claims, table: LockTable, t: Id)
    requires Consistent(claims, table)
    ensures Consistent(claims - {t}, Released(table, t))
  {
  }

  /** Two open transactions never hold one lock. */
  lemma {:induction false} LocksExclude(claims: Claims, table: LockTable, a: Id, b: Id, l: Lock)
    requires Consistent(claims, table) && a in claims && b in claims
    requires l in claims[a].locks[..claims[a].got] && l in claims[b].locks[..claims[b].got]
    ensures a == b
  {
    var i :| 0 <= i < claims[a].got && claims[a].locks[i] == l;
    var j :| 0 <= j < claims[b].got && claims[b].locks[j] == l;
  }
}
