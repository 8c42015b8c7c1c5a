/**
 * The cached copy of a CRM record and the order its snapshots arrive in: upsertPersonCache,
 * snapshotOrder and markPersonDeleted of src/lib/person-cache.ts.
 */
module Snapshots {
  import opened Days

  type Id = nat
  type Time = int

  /** Everything a snapshot always carries, apart from its clocks. */
  type Fields = string

  /** A full snapshot of one record; `raw` may be missing. */
  datatype Snapshot = Snapshot(fields: Fields, raw: Option<string>, updatedAt: Option<Time>, deletedAt: Option<Time>)

  datatype Cached = Cached(fields: Fields, raw: Option<string>, updatedAt: Option<Time>, deletedAt: Option<Time>, syncedAt: Time)

  /** A record's version: the later of its two clocks. */
  function Later(a: Option<Time>, b: Option<Time>): Option<Time> {
    if a.None? then b else if b.None? then a else if a.value < b.value then b else a
  }

  function Version(p: Snapshot): Option<Time> {
    Later(p.updatedAt, p.deletedAt)
  }

  predicate AtMost(a: Option<Time>, b: Option<Time>) {
    a.None? || (b.Some? && a.value <= b.value)
  }

  /** snapshotOrder: each stored clock, on its own, is unset or not after the incoming version. */
  predicate SnapshotOrder(r: Cached, updatedAt: Option<Time>, deletedAt: Option<Time>) {
    var version := Later(updatedAt, deletedAt);
    && (r.updatedAt.None? || (version.Some? && r.updatedAt.value <= version.value))
    && (r.deletedAt.None? || (version.Some? && r.deletedAt.value <= version.value))
  }

  /** Creating leaves a missing raw empty; updating leaves the stored one alone. */
  function Created(p: Snapshot, now: Time): Cached {
    Cached(p.fields, p.raw, p.updatedAt, p.deletedAt, now)
  }

  function Updated(r: Cached, p: Snapshot, now: Time): Cached {
    Cached(p.fields, if p.raw.Some? then p.raw else r.raw, p.updatedAt, p.deletedAt, now)
  }

  // ---------------------------------------------------------------- the statements

  /** The single statements the database runs on one record, each at some moment. */
  datatype Event = See(p: Snapshot, now: Time) | Write(p: Snapshot, now: Time) | Delete(at: Time, now: Time)

  function Step(r: Option<Cached>, e: Event): Option<Cached> {
    match e
    case See(p, now) => Some(if r.None? then Created(p, now) else r.value.(syncedAt := now))
    case Write(p, now) => if r.Some? && SnapshotOrder(r.value, p.updatedAt, p.deletedAt) then Some(Updated(r.value, p, now)) else r
    case Delete(at, now) => if r.Some? && SnapshotOrder(r.value, None, Some(at)) then Some(r.value.(deletedAt := Some(at), syncedAt := now)) else r
  }

  function Run(r: Option<Cached>, events: seq<Event>): Option<Cached> {
    if events == [] then r else Step(Run(r, events[..|events| - 1]), events[|events| - 1])
  }

  class PersonCache {
    var rows: map<Id, Cached>

    function Row(id: Id): Option<Cached>
      reads this
    {
      if id in rows then Some(rows[id]) else None
    }

    /** upsertPersonCache: create the row or mark it seen, then write the snapshot over it if its order allows. */
    method UpsertPersonCache(id: Id, p: Snapshot, now: Time) returns (row: Cached)
      modifies this
      ensures Row(id) == Run(old(Row(id)), [See(p, now), Write(p, now)]) == Some(row)
      ensures forall other :: other != id ==> Row(other) == old(Row(other))
    {
      ghost var before := Row(id);
      if id in rows {
        rows := rows[id := rows[id].(syncedAt := now)];
      } else {
        rows := rows[id := Created(p, now)];
      }
      var r := rows[id];
      if SnapshotOrder(r, p.updatedAt, p.deletedAt) {
        rows := rows[id := Updated(r, p, now)];
      }
      row := rows[id];
      TwoSteps(before, See(p, now), Write(p, now));
    }

    /** markPersonDeleted: only a row not newer than the deletion is marked; nothing is created. */
    method MarkPersonDeleted(id: Id, at: Time, now: Time) returns (count: nat)
      modifies this
      ensures Row(id) == Run(old(Row(id)), [Delete(at, now)])
      ensures count == if old(Row(id)).Some? && SnapshotOrder(old(Row(id)).value, None, Some(at)) then 1 else 0
      ensures forall other :: other != id ==> Row(other) == old(Row(other))
    {
      ghost var before := Row(id);
      count := 0;
      if id in rows && SnapshotOrder(rows[id], None, Some(at)) {
        rows := rows[id := rows[id].(deletedAt := Some(at), syncedAt := now)];
        count := 1;
      }
      OneStep(before, Delete(at, now));
    }
  }

  lemma {:induction false} OneStep(r: Option<Cached>, e: Event)
    ensures Run(r, [e]) == Step(r, e)
  {
    assert [e][..0] == [];
    assert Run(r, []) == r;
  }

  lemma {:induction false} TwoSteps(r: Option<Cached>, a: Event, b: Event)
    ensures Run(r, [a, b]) == Step(Step(r, a), b)
  {
    assert [a, b][..1] == [a];
    OneStep(r, a);
  }

  // ---------------------------------------------------------------- one clock is as good as two

  function RowVersion(r: Cached): Option<Time> {
    Later(r.updatedAt, r.deletedAt)
  }

  /** The two-clock condition accepts exactly the snapshots whose version is not behind the row's. */
  lemma {:induction false} OrderIsVersion(r: Cached, updatedAt: Option<Time>, deletedAt: Option<Time>)
    ensures SnapshotOrder(r, updatedAt, deletedAt) <==> AtMost(RowVersion(r), Later(updatedAt, deletedAt))
  {
  }

  /** A row's version never falls, whatever arrives. */
  lemma {:induction false} VersionNeverFalls(r: Cached, events: seq<Event>)
    ensures var end := Run(Some(r), events); end.Some? && AtMost(RowVersion(r), RowVersion(end.value))
  {
    if events != [] {
      VersionNeverFalls(r, events[..|events| - 1]);
    }
  }

  /** The version an event brings. */
  function Brings(e: Event): Option<Time> {
    match e
    case See(_, _) => None
    case Write(p, _) => Version(p)
    case Delete(at, _) => Some(at)
  }

  /** An accepted deletion stands, with everything else in the row, until something at least as new arrives. */
  lemma {:induction false} DeletionStands(r: Cached, at: Time, events: seq<Event>)
    requires RowVersion(r) == Some(at) && r.deletedAt == Some(at)
    requires forall i :: 0 <= i < |events| ==> !AtMost(Some(at), Brings(events[i]))
    ensures var end := Run(Some(r), events); end.Some? && end.value.(syncedAt := r.syncedAt) == r
  {
    if events != [] {
      DeletionStands(r, at, events[..|events| - 1]);
    }
  }

  /** Marking a row deleted is accepted exactly when the deletion is not behind the row, and then decides its version. */
  lemma {:induction false} AcceptedDeletion(r: Cached, at: Time, now: Time)
    ensures var end := Step(Some(r), Delete(at, now)).value;
      if AtMost(RowVersion(r), Some(at)) then end.deletedAt == Some(at) && RowVersion(end) == Some(at) && end.fields == r.fields else end == r
    ensures Step(None, Delete(at, now)) == None
  {
  }

  // ---------------------------------------------------------------- convergence

  /** The row is this snapshot, apart from when it was last seen and a raw the snapshot lacks. */
  predicate Shows(r: Cached, p: Snapshot) {
    r.fields == p.fields && r.updatedAt == p.updatedAt && r.deletedAt == p.deletedAt && (p.raw.Some? ==> r.raw == p.raw)
  }

  /** Statements of any number of upserts, in any order: the first thing seen creates the row. */
  ghost predicate Upserts(events: seq<Event>) {
    && events != [] && events[0].See?
    && (forall i :: 0 <= i < |events| ==> !events[i].Delete?)
  }

  /** Those that have had their say: the one the row was made from, and every one written since. */
  ghost function Heard(events: seq<Event>): set<Snapshot>
    requires Upserts(events)
  {
    {events[0].p} + set i | 0 <= i < |events| && events[i].Write? :: events[i].p
  }

  ghost predicate Newest(all: set<Snapshot>, n: Snapshot) {
    n in all && forall p :: p in all ==> AtMost(Version(p), Version(n))
  }

  ghost predicate DistinctVersions(all: set<Snapshot>) {
    forall p, q :: p in all && q in all && Version(p) == Version(q) ==> p == q
  }

  lemma {:induction false} OneNewest(all: set<Snapshot>, m: Snapshot, n: Snapshot)
    requires DistinctVersions(all) && Newest(all, m) && Newest(all, n)
    ensures m == n
  {
    assert AtMost(Version(m), Version(n)) && AtMost(Version(n), Version(m));
  }

  lemma {:induction false} HeardGrows(events: seq<Event>)
    requires Upserts(events) && |events| > 1
    ensures Upserts(events[..|events| - 1])
    ensures var e := events[|events| - 1];
      Heard(events) == Heard(events[..|events| - 1]) + if e.Write? then {e.p} else {}
  {
    var n := |events| - 1;
    var front := events[..n];
    forall p | p in Heard(events)
      ensures p in Heard(front) + if events[n].Write? then {events[n].p} else {}
    {
      if p != events[0].p {
        var i :| 0 <= i < |events| && events[i].Write? && events[i].p == p;
        if i < n {
          assert front[i].Write? && front[i].p == p;
        }
      }
    }
    forall p | p in Heard(front) + if events[n].Write? then {events[n].p} else {}
      ensures p in Heard(events)
    {
      if p in Heard(front) && p != events[0].p {
        var i :| 0 <= i < |front| && front[i].Write? && front[i].p == p;
        assert events[i].Write? && events[i].p == p;
      } else if p != events[0].p {
        assert events[n].Write? && events[n].p == p;
      }
    }
  }

  /** At every moment the row shows the newest snapshot heard. */
  lemma {:induction false} RowShowsNewest(events: seq<Event>) returns (n: Snapshot)
    requires Upserts(events) && DistinctVersions(Heard(events))
    ensures Newest(Heard(events), n)
    ensures Run(None, events).Some? && Shows(Run(None, events).value, n)
  {
    hide SnapshotOrder, Heard, Version;
    var k := |events| - 1;
    if k == 0 {
      OneStep(None, events[0]);
      assert events == [events[0]];
      HeardFirst(events);
      n := events[0].p;
    } else {
      HeardGrows(events);
      n := RowShowsNewest(events[..k]);
      if events[k].Write? {
        n := WriteShowsNewest(Heard(events[..k]), Heard(events), n, Run(None, events[..k]).value, events[k].p, events[k].now);
      }
    }
  }

  lemma {:induction false} HeardFirst(events: seq<Event>)
    requires Upserts(events) && |events| == 1
    ensures Newest(Heard(events), events[0].p)
  {
    assert Heard(events) == {events[0].p};
  }

  lemma {:induction false} WriteShowsNewest(before: set<Snapshot>, after: set<Snapshot>, m: Snapshot, r: Cached, p: Snapshot, now: Time) returns (n: Snapshot)
    requires Newest(before, m) && after == before + {p} && DistinctVersions(after) && Shows(r, m)
    ensures Newest(after, n)
    ensures var end := Step(Some(r), Write(p, now)); end.Some? && Shows(end.value, n)
  {
    OrderIsVersion(r, p.updatedAt, p.deletedAt);
    assert RowVersion(r) == Version(m);
    if AtMost(Version(m), Version(p)) {
      n := p;
    } else {
      n := m;
    }
  }

  /** Everything seen is also written, sooner or later. */
  ghost predicate Complete(events: seq<Event>) {
    forall i :: 0 <= i < |events| && events[i].See? ==> exists j :: i < j < |events| && events[j].Write? && events[j].p == events[i].p
  }

  ghost function Arrived(events: seq<Event>): set<Snapshot>
    requires Upserts(events)
  {
    set i | 0 <= i < |events| :: events[i].p
  }

  lemma {:induction false} AllAreHeard(events: seq<Event>)
    requires Upserts(events) && Complete(events)
    ensures Heard(events) == Arrived(events)
  {
    forall p | p in Arrived(events)
      ensures p in Heard(events)
    {
      var i :| 0 <= i < |events| && events[i].p == p;
      if events[i].See? {
        var j :| i < j < |events| && events[j].Write? && events[j].p == events[i].p;
      }
    }
  }

  /**
   * Convergence: however the statements of any number of upserts interleave, with repeats, the row
   * ends as the newest snapshot, provided versions differ.
   */
  lemma {:induction false} Converges(events: seq<Event>, n: Snapshot)
    requires Upserts(events) && Complete(events) && DistinctVersions(Arrived(events)) && Newest(Arrived(events), n)
    ensures Run(None, events).Some? && Shows(Run(None, events).value, n)
  {
    hide Run, Upserts, Complete, Heard, Arrived, Version;
    AllAreHeard(events);
    var m := RowShowsNewest(events);
    OneNewest(Heard(events), m, n);
  }

  /** With equal versions the last one written wins, so the order decides. */
  lemma {:induction false} TiesFollowOrder(a: Snapshot, b: Snapshot, now: Time)
    requires Version(a) == Version(b)
    ensures var r := Run(None, [See(a, now), Write(a, now), See(b, now), Write(b, now)]); r.Some? && Shows(r.value, b)
  {
    var first, second := [See(a, now), Write(a, now)], [See(b, now), Write(b, now)];
    assert first + second == [See(a, now), Write(a, now), See(b, now), Write(b, now)];
    RunInTwo(None, first, second);
    TwoSteps(None, See(a, now), Write(a, now));
    var r := Run(None, first);
    assert RowVersion(r.value) == Version(a);
    TwoSteps(r, See(b, now), Write(b, now));
    OrderIsVersion(r.value.(syncedAt := now), b.updatedAt, b.deletedAt);
  }

  // ---------------------------------------------------------------- the one field that does not converge

  function Elements(list: seq<Snapshot>): set<Snapshot> {
    set p | p in list
  }

  /** One upsert after another. */
  function Pairs(list: seq<Snapshot>): seq<Event> {
    if list == [] then []
    else Pairs(list[..|list| - 1]) + [See(list[|list| - 1], 0), Write(list[|list| - 1], 0)]
  }

  lemma {:induction false} PairsFine(list: seq<Snapshot>)
    requires list != []
    ensures Upserts(Pairs(list)) && Complete(Pairs(list))
    ensures Arrived(Pairs(list)) == Elements(list)
    ensures Pairs(list)[0] == See(list[0], 0)
  {
    var n := |list| - 1;
    var front, all, p := Pairs(list[..n]), Pairs(list), list[n];
    if n > 0 {
      PairsFine(list[..n]);
    }
    forall i | 0 <= i < |all| && all[i].See?
      ensures exists j :: i < j < |all| && all[j].Write? && all[j].p == all[i].p
    {
      if i < |front| {
        var j :| i < j < |front| && front[j].Write? && front[j].p == front[i].p;
        assert all[j] == front[j];
      } else {
        assert all[|front| + 1].Write? && all[|front| + 1].p == all[i].p;
      }
    }
    PairsArrive(list);
    forall q | q in list
      ensures q in Arrived(all)
    {
      var i :| 0 <= i < |all| && !all[i].Delete? && all[i].p == q;
    }
    forall q | q in Arrived(all)
      ensures q in list
    {
      var i :| 0 <= i < |all| && all[i].p == q;
    }
  }

  lemma {:induction false} PairsArrive(list: seq<Snapshot>)
    ensures forall i :: 0 <= i < |Pairs(list)| ==> !Pairs(list)[i].Delete? && Pairs(list)[i].p in list
    ensures forall p :: p in list ==> exists i :: 0 <= i < |Pairs(list)| && !Pairs(list)[i].Delete? && Pairs(list)[i].p == p
  {
    if list != [] {
      var n := |list| - 1;
      PairsArrive(list[..n]);
      var front, all := Pairs(list[..n]), Pairs(list);
      forall i | 0 <= i < |all|
        ensures !all[i].Delete? && all[i].p in list
      {
        if i < |front| {
          assert all[i] == front[i];
        }
      }
      forall p | p in list
        ensures exists i :: 0 <= i < |all| && !all[i].Delete? && all[i].p == p
      {
        if p in list[..n] {
          var i :| 0 <= i < |front| && !front[i].Delete? && front[i].p == p;
          assert all[i] == front[i];
        } else {
          assert all[|front|].p == p;
        }
      }
    }
  }

  lemma {:induction false} ListExists(all: set<Snapshot>) returns (list: seq<Snapshot>)
    ensures all == Elements(list)
  {
    if all == {} {
      list := [];
    } else {
      var p :| p in all;
      var rest := ListExists(all - {p});
      list := rest + [p];
      forall q | q in all
        ensures q in Elements(list)
      {
        assert q != p ==> q in Elements(rest);
      }
    }
  }

  /** Without a raw anywhere, the row never gets one. */
  lemma {:induction false} NoRawAnywhere(events: seq<Event>)
    requires forall i :: 0 <= i < |events| ==> !events[i].Delete? && events[i].p.raw.None?
    ensures Run(None, events).Some? ==> Run(None, events).value.raw.None?
  {
    hide SnapshotOrder;
    if events != [] {
      NoRawAnywhere(events[..|events| - 1]);
    }
  }

  /** Once the newest is shown, a raw it lacks stays whatever it was. */
  lemma {:induction false} StaleRawStays(all: set<Snapshot>, n: Snapshot, r: Cached, events: seq<Event>)
    requires DistinctVersions(all) && Newest(all, n) && n.raw.None? && Shows(r, n)
    requires forall i :: 0 <= i < |events| ==> !events[i].Delete? && events[i].p in all
    ensures var end := Run(Some(r), events); end.Some? && Shows(end.value, n) && end.value.raw == r.raw
  {
    hide SnapshotOrder, Version;
    if events != [] {
      var k := |events| - 1;
      StaleRawStays(all, n, r, events[..k]);
      var now := Run(Some(r), events[..k]).value;
      if events[k].Write? {
        OnlyNewestOverwrites(all, n, now, events[k].p);
      }
    }
  }

  lemma {:induction false} OnlyNewestOverwrites(all: set<Snapshot>, n: Snapshot, r: Cached, p: Snapshot)
    requires DistinctVersions(all) && Newest(all, n) && Shows(r, n) && p in all
    ensures SnapshotOrder(r, p.updatedAt, p.deletedAt) ==> p == n
  {
    OrderIsVersion(r, p.updatedAt, p.deletedAt);
    assert RowVersion(r) == Version(n);
    assert AtMost(Version(p), Version(n));
  }

  lemma {:induction false} RunInTwo(r: Option<Cached>, a: seq<Event>, b: seq<Event>)
    ensures Run(r, a + b) == Run(Run(r, a), b)
  {
    if b == [] {
      assert a + b == a;
    } else {
      assert (a + b)[..|a + b| - 1] == a + b[..|b| - 1];
      RunInTwo(r, a, b[..|b| - 1]);
    }
  }

  /** An order in which an older snapshot's raw outlives it. */
  lemma {:induction false} StaleRawOrder(all: set<Snapshot>, n: Snapshot, p: Snapshot) returns (events: seq<Event>)
    requires DistinctVersions(all) && Newest(all, n) && n.raw.None? && p in all && p.raw.Some?
    ensures Upserts(events) && Complete(events) && Arrived(events) == all
    ensures Run(None, events).Some? && Run(None, events).value.raw == p.raw
  {
    hide Upserts, Complete, Arrived, SnapshotOrder, Version, Run;
    var rest := ListExists(all);
    var list := [p, n] + rest;
    PairsFine(list);
    events := Pairs(list);
    assert Elements(list) == all by {
      SameSet(all, p, n, rest);
    }
    PairsInTwo([p, n], rest);
    RunInTwo(None, Pairs([p, n]), Pairs(rest));
    PairsArrive(rest);
    var r := PairOfTwo(all, p, n);
    StaleRawStays(all, n, r, Pairs(rest));
  }

  lemma {:induction false} SameSet(all: set<Snapshot>, p: Snapshot, n: Snapshot, rest: seq<Snapshot>)
    requires p in all && n in all && all == Elements(rest)
    ensures Elements([p, n] + rest) == all
  {
    forall q | q in all
      ensures q in Elements([p, n] + rest)
    {
      assert q in Elements(rest);
    }
  }

  lemma {:induction false} PairsInTwo(a: seq<Snapshot>, b: seq<Snapshot>)
    ensures Pairs(a + b) == Pairs(a) + Pairs(b)
  {
    if b == [] {
      assert a + b == a;
    } else {
      assert (a + b)[..|a + b| - 1] == a + b[..|b| - 1];
      PairsInTwo(a, b[..|b| - 1]);
    }
  }

  lemma {:induction false} PairOfTwo(all: set<Snapshot>, p: Snapshot, n: Snapshot) returns (r: Cached)
    requires DistinctVersions(all) && Newest(all, n) && n.raw.None? && p in all && p.raw.Some?
    ensures Run(None, Pairs([p, n])) == Some(r) && Shows(r, n) && r.raw == p.raw
  {
    var first, second := [See(p, 0), Write(p, 0)], [See(n, 0), Write(n, 0)];
    PairsInTwo([p], [n]);
    OnePair(p);
    OnePair(n);
    assert [p] + [n] == [p, n];
    RunInTwo(None, first, second);
    TwoSteps(None, See(p, 0), Write(p, 0));
    var made := Run(None, first);
    assert RowVersion(made.value) == Version(p);
    TwoSteps(made, See(n, 0), Write(n, 0));
    OrderIsVersion(made.value.(syncedAt := 0), n.updatedAt, n.deletedAt);
    r := Run(None, Pairs([p, n])).value;
  }

  lemma {:induction false} OnePair(p: Snapshot)
    ensures Pairs([p]) == [See(p, 0), Write(p, 0)]
  {
    assert [p][..0] == [];
    assert Pairs([]) == [];
  }

  /**
   * The raw copy converges exactly when the newest snapshot carries one or none does: otherwise some
   * order leaves an older snapshot's raw beside the newest snapshot's fields.
   */
  lemma {:induction false} RawConverges(all: set<Snapshot>, n: Snapshot)
    requires DistinctVersions(all) && Newest(all, n)
    ensures (forall events :: Upserts(events) && Complete(events) && Arrived(events) == all ==> RawIs(events, n.raw))
      <==> n.raw.Some? || forall p :: p in all ==> p.raw.None?
  {
    hide Upserts, Complete, Arrived, Run;
    if n.raw.Some? || forall p :: p in all ==> p.raw.None? {
      forall events | Upserts(events) && Complete(events) && Arrived(events) == all
        ensures RawIs(events, n.raw)
      {
        Converges(events, n);
        if n.raw.None? {
          EachArrived(events);
          NoRawAnywhere(events);
        }
      }
    } else {
      var p :| p in all && p.raw.Some?;
      var events := StaleRawOrder(all, n, p);
      assert !RawIs(events, n.raw);
    }
  }

  ghost predicate RawIs(events: seq<Event>, raw: Option<string>) {
    Run(None, events).Some? && Run(None, events).value.raw == raw
  }

  lemma {:induction false} EachArrived(events: seq<Event>)
    requires Upserts(events)
    ensures forall i :: 0 <= i < |events| ==> !events[i].Delete? && events[i].p in Arrived(events)
  {
  }
}
