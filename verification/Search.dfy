/** The planner's backtracking search, as a function from state to state. */
module Search {
  // In src/lib/campaign-planner.ts `search` is this walk with no empty day allowed, and `upTo(k)`
  // the same walk with at most `k`.

  import opened Days
  import opened Placement

  /** A remembered dead end: the batch to place, the last start used, and the whole table. */
  datatype Key = Key(i: nat, after: int, slots: Slots)

  /**
   * What the walk mutates: the table, the dates given to each batch, the calls counted so far,
   * whether the count passed its limit, and the dead ends.
   */
  datatype Trail = Trail(slots: Slots, dates: seq<seq<Day>>, count: nat, out: bool, failed: set<Key>)

  /** `k` empty days allowed; `late` adds the bound on each batch's latest start. */
  datatype Rules = Rules(k: nat, late: bool)

  ghost predicate ValidTrail(b: Board, t: Trail) {
    OnBoard(b, t.slots) && |t.dates| == |b.options|
  }

  /** The table once the last push on each of a journey's days is popped. */
  function Drop(slots: Slots, dates: seq<Day>): (before: Slots)
    ensures before.Keys == slots.Keys
  {
    map d | d in slots :: if d in dates && slots[d] != [] then slots[d][..|slots[d]| - 1] else slots[d]
  }

  /** A failed start taken back: its steps popped and its dates cleared. */
  function Back(t: Trail, i: nat, o: Start): Trail
    requires i < |t.dates|
  {
    t.(slots := Drop(t.slots, o.dates), dates := t.dates[i := []])
  }

  /** Start `o` taken for batch `i`. */
  function Forth(t: Trail, i: nat, o: Start): Trail
    requires i < |t.dates|
  {
    t.(slots := Put(t.slots, o.dates), dates := t.dates[i := o.dates])
  }

  /** Popping a journey undoes pushing it. */
  lemma {:induction false} DropUndoesPut(slots: Slots, dates: seq<Day>)
    requires Ascending(dates)
    ensures Drop(Put(slots, dates), dates) == slots
  {
    forall d | d in slots
      ensures Drop(Put(slots, dates), dates)[d] == slots[d]
    {
      PutAt(slots, dates, d);
    }
  }

  /** The last start worth trying: past it, more than `k` days would stay empty behind it. */
  function Bound(b: Board, rules: Rules, i: nat, empty: seq<nat>): int
    requires ValidBoard(b) && i < |b.options|
  {
    var last := if |empty| > rules.k then empty[rules.k] else |b.days| - 1;
    if rules.late && Latest(b, i) < last then Latest(b, i) else last
  }

  /** Reasons to give up on a state before trying any start. */
  predicate Hopeless(b: Board, rules: Rules, i: nat, after: int, empty: seq<nat>)
    requires ValidBoard(b) && i < |b.options|
  {
    |empty| > rules.k + Suffix(b, i) || (rules.late && Latest(b, i) <= after)
  }

  /** One call of `search` or `place`. */
  function Explore(b: Board, rules: Rules, limit: nat, i: nat, after: int, t: Trail): (r: (bool, Trail))
    requires ValidBoard(b) && ValidTrail(b, t) && i <= |b.options|
    ensures ValidTrail(b, r.1)
    decreases |b.options| - i, 1, 0
  {
    var t := t.(count := t.count + 1);
    if t.count > limit then (false, t.(out := true))
    else
      var empty := Empty(b, t.slots, |b.days|);
      if i == |b.options| then (|empty| <= rules.k, t)
      else if Hopeless(b, rules, i, after, empty) || Key(i, after, t.slots) in t.failed then (false, t)
      else TryStarts(b, rules, limit, i, after, Bound(b, rules, i, empty), 0, t)
  }

  /** The loop of one call over batch `i`'s starts, from start `x` on. */
  function TryStarts(b: Board, rules: Rules, limit: nat, i: nat, after: int, bound: int, x: nat, t: Trail): (r: (bool, Trail))
    requires ValidBoard(b) && ValidTrail(b, t) && i < |b.options| && x <= |b.options[i]|
    ensures ValidTrail(b, r.1)
    decreases |b.options| - i, 0, |b.options[i]| - x
  {
    if x == |b.options[i]| then (false, t.(failed := t.failed + {Key(i, after, t.slots)}))
    else
      var o := b.options[i][x];
      StartFacts(b, i, o);
      if o.index <= after || o.index > bound || !Open(t.slots, o.dates) then
        TryStarts(b, rules, limit, i, after, bound, x + 1, t)
      else
        var r := Explore(b, rules, limit, i + 1, o.index, Forth(t, i, o));
        if r.0 then r
        else
          var u := Back(r.1, i, o);
          if u.out then (false, u) else TryStarts(b, rules, limit, i, after, bound, x + 1, u)
  }

  /** One turn of the loop: a start that is passed over. */
  lemma {:induction false} TrySkips(b: Board, rules: Rules, limit: nat, i: nat, after: int, bound: int, x: nat, t: Trail)
    requires ValidBoard(b) && ValidTrail(b, t) && i < |b.options| && x < |b.options[i]|
    requires var o := b.options[i][x];
      (StartFacts(b, i, o); o.index <= after || o.index > bound || !Open(t.slots, o.dates))
    ensures TryStarts(b, rules, limit, i, after, bound, x, t) == TryStarts(b, rules, limit, i, after, bound, x + 1, t)
  {
    hide ValidBoard, Open;
  }

  /** One turn of the loop: a start that is tried, and kept or taken back. */
  lemma {:induction false} TryEnters(b: Board, rules: Rules, limit: nat, i: nat, after: int, bound: int, x: nat, t: Trail)
    requires ValidBoard(b) && ValidTrail(b, t) && i < |b.options| && x < |b.options[i]|
    requires var o := b.options[i][x];
      (StartFacts(b, i, o); after < o.index <= bound && Open(t.slots, o.dates))
    ensures var o := b.options[i][x]; var r := Explore(b, rules, limit, i + 1, o.index, Forth(t, i, o));
      TryStarts(b, rules, limit, i, after, bound, x, t) ==
      if r.0 then r
      else if Back(r.1, i, o).out then (false, Back(r.1, i, o))
      else TryStarts(b, rules, limit, i, after, bound, x + 1, Back(r.1, i, o))
  {
    hide ValidBoard, ValidStart, Ascending, Open, Explore, Put, Drop, Bound, ValidTrail;
  }

  lemma {:induction false} TryEnds(b: Board, rules: Rules, limit: nat, i: nat, after: int, bound: int, t: Trail)
    requires ValidBoard(b) && ValidTrail(b, t) && i < |b.options|
    ensures TryStarts(b, rules, limit, i, after, bound, |b.options[i]|, t) == (false, t.(failed := t.failed + {Key(i, after, t.slots)}))
  {
  }

  lemma {:induction false} DropNothing(slots: Slots)
    ensures Drop(slots, []) == slots
  {
  }

  /** Popping one more day of a journey. */
  lemma {:induction false} DropStep(slots: Slots, dates: seq<Day>, n: nat)
    requires n < |dates| && Ascending(dates) && dates[n] in slots
    ensures Drop(slots, dates[..n])[dates[n]] == slots[dates[n]]
    ensures Drop(slots, dates[..n + 1]) == Drop(slots, dates[..n])[dates[n] :=
      if slots[dates[n]] != [] then slots[dates[n]][..|slots[dates[n]]| - 1] else slots[dates[n]]]
  {
    assert dates[..n + 1] == dates[..n] + [dates[n]];
    assert dates[n] !in dates[..n];
  }

  // ---------------------------------------------------------------- why each prune is safe

  /** Start `o` for batch `i` can be completed to a plan. */
  ghost predicate Leads(b: Board, k: nat, i: nat, after: int, slots: Slots, o: Start)
    requires ValidBoard(b) && OnBoard(b, slots) && i < |b.options| && o in b.options[i]
  {
    StartFacts(b, i, o);
    after < o.index && Open(slots, o.dates) && CanFinish(b, k, i + 1, o.index, Put(slots, o.dates))
  }

  lemma {:induction false} FinishesByAStart(b: Board, k: nat, i: nat, after: int, slots: Slots)
    requires ValidBoard(b) && OnBoard(b, slots) && i < |b.options|
    ensures CanFinish(b, k, i, after, slots) <==> exists o :: o in b.options[i] && Leads(b, k, i, after, slots, o)
  {
    hide ValidBoard, Open, Put;
    if CanFinish(b, k, i, after, slots) {
      var plan: seq<Start> :| Finishes(b, k, i, after, slots, plan);
      assert Finishes(b, k, i + 1, plan[0].index, Put(slots, plan[0].dates), plan[1..]);
      assert Leads(b, k, i, after, slots, plan[0]);
    }
    if o :| o in b.options[i] && Leads(b, k, i, after, slots, o) {
      var rest: seq<Start> :| Finishes(b, k, i + 1, o.index, Put(slots, o.dates), rest);
      var plan := [o] + rest;
      assert plan[1..] == rest;
      assert Finishes(b, k, i, after, slots, plan);
    }
  }

  /** A hopeless state has no completion. */
  lemma {:induction false} HopelessIsFinal(b: Board, rules: Rules, i: nat, after: int, slots: Slots)
    requires ValidBoard(b) && OnBoard(b, slots) && i < |b.options|
    requires Hopeless(b, rules, i, after, Empty(b, slots, |b.days|))
    ensures !CanFinish(b, rules.k, i, after, slots)
  {
    hide ValidBoard, Put, Open;
    forall plan: seq<Start> | Finishes(b, rules.k, i, after, slots, plan)
      ensures false
    {
      NeedsTouches(b, rules.k, i, after, slots, plan);
      StartsInTime(b, rules.k, i, after, slots, plan);
    }
  }

  /** No start past the bound can be completed. */
  lemma {:induction false} BoundIsSafe(b: Board, rules: Rules, i: nat, after: int, slots: Slots, o: Start)
    requires ValidBoard(b) && OnBoard(b, slots) && i < |b.options| && o in b.options[i]
    requires Leads(b, rules.k, i, after, slots, o)
    ensures o.index <= Bound(b, rules, i, Empty(b, slots, |b.days|))
  {
    hide ValidBoard, Put, Open, Finishes, Ascending, ValidStart;
    StartFacts(b, i, o);
    var rest: seq<Start> :| Finishes(b, rules.k, i + 1, o.index, Put(slots, o.dates), rest);
    NotPastLatest(b, rules.k, i, slots, o, rest);
    LeavesBehind(b, rules.k, i + 1, o.index, Put(slots, o.dates), rest);
    var empty := Empty(b, slots, |b.days|);
    if |empty| > rules.k && empty[rules.k] < o.index {
      StaysEmpty(b, slots, o, o.index);
      EmptyBefore(b, slots, o.index, rules.k);
    }
  }

  lemma {:induction false} NotPastLatest(b: Board, k: nat, i: nat, slots: Slots, o: Start, rest: seq<Start>)
    requires ValidBoard(b) && OnBoard(b, slots) && i < |b.options| && o in b.options[i]
    requires Finishes(b, k, i + 1, o.index, Put(slots, o.dates), rest)
    ensures o.index <= Latest(b, i)
  {
    hide ValidBoard, Put, Open, Ascending, ValidStart;
    StartFacts(b, i, o);
    if rest != [] {
      StartsInTime(b, k, i + 1, o.index, Put(slots, o.dates), rest);
    }
  }

  /** If the (k+1)th empty day comes before position `m`, more than `k` of the first `m` days are empty. */
  lemma {:induction false} EmptyBefore(b: Board, slots: Slots, m: nat, k: nat)
    requires OnBoard(b, slots) && m <= |b.days|
    requires |Empty(b, slots, |b.days|)| > k && Empty(b, slots, |b.days|)[k] < m
    ensures |Empty(b, slots, m)| > k
  {
    var all, first := Empty(b, slots, |b.days|), Empty(b, slots, m);
    EmptyPrefixes(b, slots, |b.days|);
    EmptyExact(b, slots, |b.days|);
    EmptyExact(b, slots, m);
    assert first <= all;
    assert all[k] in first;
    var j :| 0 <= j < |first| && first[j] == all[k];
    assert all[j] == all[k];
  }

  // ---------------------------------------------------------------- exactness

  /** Every remembered state really has no completion. */
  ghost predicate FailedSound(b: Board, k: nat, failed: set<Key>)
    requires ValidBoard(b)
  {
    forall key :: key in failed ==> OnBoard(b, key.slots) && !CanFinish(b, k, key.i, key.after, key.slots)
  }

  /** The table once a whole run of batches is pushed. */
  function PutAll(slots: Slots, plan: seq<Start>): Slots {
    if plan == [] then slots else PutAll(Put(slots, plan[0].dates), plan[1..])
  }

  /** `u` is `t` with the batches from `i` on placed by a completion that leaves at most `k` days empty. */
  ghost predicate Completed(b: Board, k: nat, i: nat, after: int, t: Trail, u: Trail)
    requires ValidBoard(b) && ValidTrail(b, t) && i <= |b.options|
  {
    exists plan :: CompletedBy(b, k, i, after, t, u, plan)
  }

  ghost predicate CompletedBy(b: Board, k: nat, i: nat, after: int, t: Trail, u: Trail, plan: seq<Start>)
    requires ValidBoard(b) && ValidTrail(b, t) && i <= |b.options|
  {
    && Finishes(b, k, i, after, t.slots, plan)
    && u.dates == t.dates[..i] + DatesOf(plan)
    && u.slots == PutAll(t.slots, plan)
  }

  /** No dates given yet to the batches from `i` on. */
  predicate Undated(t: Trail, i: nat) {
    forall j :: i <= j < |t.dates| ==> t.dates[j] == []
  }

  /**
   * What one call answers. Yes: the batches are placed by a real completion. No: the table and the
   * dates are as they were, and, unless the count ran out, no completion exists. Either way every
   * remembered dead end stays true.
   */
  ghost predicate Answers(b: Board, k: nat, i: nat, after: int, t: Trail, ok: bool, u: Trail)
    requires ValidBoard(b) && ValidTrail(b, t) && i <= |b.options|
  {
    && FailedSound(b, k, u.failed)
    && t.count <= u.count
    && (t.out ==> u.out)
    && (ok ==> Completed(b, k, i, after, t, u))
    && (!ok ==> u.slots == t.slots && u.dates == t.dates)
    && (!ok && !u.out ==> !CanFinish(b, k, i, after, t.slots))
  }

  /** The search is exact: its memory and both prunes lose no plan, and failure undoes every push. */
  lemma {:induction false} ExploreExact(b: Board, rules: Rules, limit: nat, i: nat, after: int, t: Trail)
    requires ValidBoard(b) && ValidTrail(b, t) && i <= |b.options|
    requires FailedSound(b, rules.k, t.failed) && Undated(t, i)
    ensures var (ok, u) := Explore(b, rules, limit, i, after, t);
      Answers(b, rules.k, i, after, t, ok, u)
    decreases |b.options| - i, 1, 0
  {
    hide ValidBoard, Put, Open, Empty, Drop;
    var v := t.(count := t.count + 1);
    if v.count <= limit {
      var empty := Empty(b, t.slots, |b.days|);
      if i == |b.options| {
        NothingLeft(b, rules.k, i, after, t, v);
      } else if Hopeless(b, rules, i, after, empty) {
        HopelessIsFinal(b, rules, i, after, t.slots);
      } else if Key(i, after, t.slots) !in t.failed {
        TryExact(b, rules, limit, i, after, 0, v);
        var (ok, u) := Explore(b, rules, limit, i, after, t);
        if ok {
          var plan: seq<Start> :| CompletedBy(b, rules.k, i, after, v, u, plan);
          assert CompletedBy(b, rules.k, i, after, t, u, plan);
        }
      }
    }
  }

  /** With every batch placed, the answer is the number of empty days. */
  lemma {:induction false} NothingLeft(b: Board, k: nat, i: nat, after: int, t: Trail, u: Trail)
    requires ValidBoard(b) && ValidTrail(b, t) && i == |b.options|
    requires u.slots == t.slots && u.dates == t.dates
    ensures CanFinish(b, k, i, after, t.slots) <==> Quiet(b, t.slots) <= k
    ensures Quiet(b, t.slots) <= k ==> Completed(b, k, i, after, t, u)
  {
    hide ValidBoard, Quiet, Open, Put;
    if Quiet(b, t.slots) <= k {
      assert Finishes(b, k, i, after, t.slots, []);
      assert t.dates[..i] + DatesOf([]) == u.dates;
      assert CompletedBy(b, k, i, after, t, u, []);
    }
    forall plan: seq<Start> | Finishes(b, k, i, after, t.slots, plan)
      ensures plan == []
    {
    }
  }

  lemma {:induction false} TryExact(b: Board, rules: Rules, limit: nat, i: nat, after: int, x: nat, t: Trail)
    requires ValidBoard(b) && ValidTrail(b, t) && i < |b.options| && x <= |b.options[i]|
    requires FailedSound(b, rules.k, t.failed) && Undated(t, i)
    requires forall y :: 0 <= y < x ==> !Leads(b, rules.k, i, after, t.slots, b.options[i][y])
    ensures var (ok, u) := TryStarts(b, rules, limit, i, after, Bound(b, rules, i, Empty(b, t.slots, |b.days|)), x, t);
      Answers(b, rules.k, i, after, t, ok, u)
    decreases |b.options| - i, 0, |b.options[i]| - x
  {
    hide ValidBoard, Put, Open, Empty, Drop, Latest, ValidStart, Ascending, Explore;
    var k := rules.k;
    FinishesByAStart(b, k, i, after, t.slots);
    if x < |b.options[i]| {
      var bound := Bound(b, rules, i, Empty(b, t.slots, |b.days|));
      var o := b.options[i][x];
      StartFacts(b, i, o);
      if o.index <= after || o.index > bound || !Open(t.slots, o.dates) {
        if Leads(b, k, i, after, t.slots, o) {
          BoundIsSafe(b, rules, i, after, t.slots, o);
        }
        TryExact(b, rules, limit, i, after, x + 1, t);
      } else {
        var placed := Forth(t, i, o);
        ExploreExact(b, rules, limit, i + 1, o.index, placed);
        var (ok, u) := Explore(b, rules, limit, i + 1, o.index, placed);
        if ok {
          PlacedFirst(b, k, i, after, t, o, u);
        } else {
          DropUndoesPut(t.slots, o.dates);
          var back := Back(u, i, o);
          assert back.slots == t.slots;
          assert back.dates == t.dates;
          if !back.out {
            TryExact(b, rules, limit, i, after, x + 1, back);
            var (ok2, v) := TryStarts(b, rules, limit, i, after, bound, x + 1, back);
            if ok2 {
              var plan: seq<Start> :| CompletedBy(b, k, i, after, back, v, plan);
              assert CompletedBy(b, k, i, after, t, v, plan);
            }
          }
        }
      }
    }
  }

  /** A completion of the later batches, with start `o` before it, completes from batch `i`. */
  lemma {:induction false} PlacedFirst(b: Board, k: nat, i: nat, after: int, t: Trail, o: Start, u: Trail)
    requires ValidBoard(b) && ValidTrail(b, t) && i < |b.options| && o in b.options[i]
    requires after < o.index && (StartFacts(b, i, o); Open(t.slots, o.dates))
    requires Completed(b, k, i + 1, o.index, Forth(t, i, o), u)
    ensures Completed(b, k, i, after, t, u)
  {
    hide ValidBoard, Put, Open, ValidStart, Ascending;
    var placed := Forth(t, i, o);
    var rest: seq<Start> :| CompletedBy(b, k, i + 1, o.index, placed, u, rest);
    var plan := [o] + rest;
    assert plan[1..] == rest;
    assert t.dates[..i] + DatesOf(plan) == placed.dates[..i + 1] + DatesOf(rest);
    assert CompletedBy(b, k, i, after, t, u, plan);
  }

  // ---------------------------------------------------------------- the count

  lemma {:induction false} ExploreCounts(b: Board, rules: Rules, limit: nat, i: nat, after: int, t: Trail)
    requires ValidBoard(b) && ValidTrail(b, t) && i <= |b.options|
    ensures Explore(b, rules, limit, i, after, t).1.count > t.count
    decreases |b.options| - i, 1, 0
  {
    hide ValidBoard, Put, Open, Drop;
    if t.count < limit && i < |b.options| {
      TryCounts(b, rules, limit, i, after, Bound(b, rules, i, Empty(b, t.slots, |b.days|)), 0, t.(count := t.count + 1));
    }
  }

  lemma {:induction false} TryCounts(b: Board, rules: Rules, limit: nat, i: nat, after: int, bound: int, x: nat, t: Trail)
    requires ValidBoard(b) && ValidTrail(b, t) && i < |b.options| && x <= |b.options[i]|
    ensures TryStarts(b, rules, limit, i, after, bound, x, t).1.count >= t.count
    decreases |b.options| - i, 0, |b.options[i]| - x
  {
    hide ValidBoard, ValidStart, Ascending, Put, Open, Drop, Explore;
    if x < |b.options[i]| {
      var o := b.options[i][x];
      StartFacts(b, i, o);
      if o.index <= after || o.index > bound || !Open(t.slots, o.dates) {
        TryCounts(b, rules, limit, i, after, bound, x + 1, t);
      } else {
        ExploreCounts(b, rules, limit, i + 1, o.index, Forth(t, i, o));
        var u := Explore(b, rules, limit, i + 1, o.index, Forth(t, i, o)).1;
        TryCounts(b, rules, limit, i, after, bound, x + 1, Back(u, i, o));
      }
    }
  }

  /** A walk that succeeds never passed its limit. */
  lemma {:induction false} SuccessIsWithinLimit(b: Board, rules: Rules, limit: nat, i: nat, after: int, t: Trail)
    requires ValidBoard(b) && ValidTrail(b, t) && i <= |b.options|
    ensures var (ok, u) := Explore(b, rules, limit, i, after, t);
      && (ok ==> u.count <= limit)
      && (!t.out ==> (u.out <==> u.count > limit))
    decreases |b.options| - i, 1, 0
  {
    hide ValidBoard, Put, Open, Drop;
    if t.count < limit && i < |b.options| {
      TryWithinLimit(b, rules, limit, i, after, Bound(b, rules, i, Empty(b, t.slots, |b.days|)), 0, t.(count := t.count + 1));
    }
  }

  lemma {:induction false} TryWithinLimit(b: Board, rules: Rules, limit: nat, i: nat, after: int, bound: int, x: nat, t: Trail)
    requires ValidBoard(b) && ValidTrail(b, t) && i < |b.options| && x <= |b.options[i]| && t.count <= limit
    ensures var (ok, u) := TryStarts(b, rules, limit, i, after, bound, x, t);
      && (ok ==> u.count <= limit)
      && (!t.out ==> (u.out <==> u.count > limit))
    decreases |b.options| - i, 0, |b.options[i]| - x
  {
    hide ValidBoard, ValidStart, Ascending, Put, Open, Drop, Explore, Empty, TryStarts;
    if x == |b.options[i]| {
      TryEnds(b, rules, limit, i, after, bound, t);
    } else {
      var o := b.options[i][x];
      StartFacts(b, i, o);
      if o.index <= after || o.index > bound || !Open(t.slots, o.dates) {
        TrySkips(b, rules, limit, i, after, bound, x, t);
        TryWithinLimit(b, rules, limit, i, after, bound, x + 1, t);
      } else {
        TryEnters(b, rules, limit, i, after, bound, x, t);
        SuccessIsWithinLimit(b, rules, limit, i + 1, o.index, Forth(t, i, o));
        var u := Explore(b, rules, limit, i + 1, o.index, Forth(t, i, o)).1;
        if !t.out && u.count <= limit {
          TryWithinLimit(b, rules, limit, i, after, bound, x + 1, Back(u, i, o));
        } else if t.out {
          FlagStaysUp(b, rules, limit, i + 1, o.index, Forth(t, i, o));
        }
      }
    }
  }

  /** The flag, once up, stays up. */
  lemma {:induction false} FlagStaysUp(b: Board, rules: Rules, limit: nat, i: nat, after: int, t: Trail)
    requires ValidBoard(b) && ValidTrail(b, t) && i <= |b.options| && t.out
    ensures Explore(b, rules, limit, i, after, t).1.out
    decreases |b.options| - i, 1, 0
  {
    hide ValidBoard, Put, Open, Drop;
    if t.count < limit && i < |b.options| {
      FlagStaysUpTrying(b, rules, limit, i, after, Bound(b, rules, i, Empty(b, t.slots, |b.days|)), 0, t.(count := t.count + 1));
    }
  }

  lemma {:induction false} FlagStaysUpTrying(b: Board, rules: Rules, limit: nat, i: nat, after: int, bound: int, x: nat, t: Trail)
    requires ValidBoard(b) && ValidTrail(b, t) && i < |b.options| && x <= |b.options[i]| && t.out
    ensures TryStarts(b, rules, limit, i, after, bound, x, t).1.out
    decreases |b.options| - i, 0, |b.options[i]| - x
  {
    hide ValidBoard, ValidStart, Ascending, Put, Open, Drop, Explore, Empty, TryStarts;
    if x == |b.options[i]| {
      TryEnds(b, rules, limit, i, after, bound, t);
    } else {
      var o := b.options[i][x];
      StartFacts(b, i, o);
      if o.index <= after || o.index > bound || !Open(t.slots, o.dates) {
        TrySkips(b, rules, limit, i, after, bound, x, t);
        FlagStaysUpTrying(b, rules, limit, i, after, bound, x + 1, t);
      } else {
        TryEnters(b, rules, limit, i, after, bound, x, t);
        FlagStaysUp(b, rules, limit, i + 1, o.index, Forth(t, i, o));
      }
    }
  }

  /** With the flag up a search makes one dive: at most one call for each batch still to place, and one more. */
  lemma {:induction false} FlagUpDivesOnce(b: Board, rules: Rules, limit: nat, i: nat, after: int, t: Trail)
    requires ValidBoard(b) && ValidTrail(b, t) && i <= |b.options| && t.out
    ensures Explore(b, rules, limit, i, after, t).1.count <= t.count + |b.options| - i + 1
    decreases |b.options| - i, 1, 0
  {
    hide ValidBoard, Put, Open, Drop, TryStarts, Empty, Hopeless, Bound;
    if t.count < limit && i < |b.options| {
      FlagUpTriesOnce(b, rules, limit, i, after, Bound(b, rules, i, Empty(b, t.slots, |b.days|)), 0, t.(count := t.count + 1));
    }
  }

  lemma {:induction false} FlagUpTriesOnce(b: Board, rules: Rules, limit: nat, i: nat, after: int, bound: int, x: nat, t: Trail)
    requires ValidBoard(b) && ValidTrail(b, t) && i < |b.options| && x <= |b.options[i]| && t.out
    ensures TryStarts(b, rules, limit, i, after, bound, x, t).1.count <= t.count + |b.options| - i
    decreases |b.options| - i, 0, |b.options[i]| - x
  {
    hide ValidBoard, ValidStart, Ascending, Put, Open, Drop, Explore, TryStarts;
    if x == |b.options[i]| {
      TryEnds(b, rules, limit, i, after, bound, t);
    } else {
      var o := b.options[i][x];
      StartFacts(b, i, o);
      if o.index <= after || o.index > bound || !Open(t.slots, o.dates) {
        TrySkips(b, rules, limit, i, after, bound, x, t);
        FlagUpTriesOnce(b, rules, limit, i, after, bound, x + 1, t);
      } else {
        TryEnters(b, rules, limit, i, after, bound, x, t);
        FlagUpDivesOnce(b, rules, limit, i + 1, o.index, Forth(t, i, o));
        FlagStaysUp(b, rules, limit, i + 1, o.index, Forth(t, i, o));
      }
    }
  }

  /** The same trail, counted from another number. */
  function Recounted(t: Trail, count: nat): Trail {
    t.(count := count)
  }

  /**
   * A walk that never passed its limit goes exactly the same way, to the same dates, under any
   * limit that leaves at least as many calls, whatever the count started from.
   */
  lemma {:induction false} MoreRoomSameWalk(b: Board, rules: Rules, limit: nat, i: nat, after: int, t: Trail, roomier: nat, from: nat)
    requires ValidBoard(b) && ValidTrail(b, t) && i <= |b.options|
    requires Explore(b, rules, limit, i, after, t).1.count <= limit
    requires from + (limit - t.count) <= roomier
    ensures var (ok, u) := Explore(b, rules, limit, i, after, t);
      u.count >= t.count &&
      Explore(b, rules, roomier, i, after, Recounted(t, from)) == (ok, Recounted(u, from + (u.count - t.count)))
    decreases |b.options| - i, 1, 0
  {
    hide ValidBoard, Put, Open, Drop;
    ExploreCounts(b, rules, limit, i, after, t);
    if i < |b.options| {
      var empty := Empty(b, t.slots, |b.days|);
      if !Hopeless(b, rules, i, after, empty) && Key(i, after, t.slots) !in t.failed {
        MoreRoomSameTries(b, rules, limit, i, after, Bound(b, rules, i, empty), 0, t.(count := t.count + 1), roomier, from + 1);
      }
    }
  }

  lemma {:induction false} MoreRoomSameTries(b: Board, rules: Rules, limit: nat, i: nat, after: int, bound: int, x: nat, t: Trail, roomier: nat, from: nat)
    requires ValidBoard(b) && ValidTrail(b, t) && i < |b.options| && x <= |b.options[i]|
    requires TryStarts(b, rules, limit, i, after, bound, x, t).1.count <= limit
    requires t.count <= limit && from + (limit - t.count) <= roomier
    ensures var (ok, u) := TryStarts(b, rules, limit, i, after, bound, x, t);
      u.count >= t.count &&
      TryStarts(b, rules, roomier, i, after, bound, x, Recounted(t, from)) == (ok, Recounted(u, from + (u.count - t.count)))
    decreases |b.options| - i, 0, |b.options[i]| - x
  {
    hide ValidBoard, ValidStart, Ascending, Put, Open, Drop, Explore, Empty, TryStarts, StepsOn;
    TryCounts(b, rules, limit, i, after, bound, x, t);
    var re := Recounted(t, from);
    if x == |b.options[i]| {
      TryEnds(b, rules, limit, i, after, bound, t);
      TryEnds(b, rules, roomier, i, after, bound, re);
    } else {
      var o := b.options[i][x];
      StartFacts(b, i, o);
      if o.index <= after || o.index > bound || !Open(t.slots, o.dates) {
        TrySkips(b, rules, limit, i, after, bound, x, t);
        TrySkips(b, rules, roomier, i, after, bound, x, re);
        MoreRoomSameTries(b, rules, limit, i, after, bound, x + 1, t, roomier, from);
      } else {
        TryEnters(b, rules, limit, i, after, bound, x, t);
        TryEnters(b, rules, roomier, i, after, bound, x, re);
        var placed := Forth(t, i, o);
        var (ok, u) := Explore(b, rules, limit, i + 1, o.index, placed);
        ExploreCounts(b, rules, limit, i + 1, o.index, placed);
        var back := Back(u, i, o);
        TryCounts(b, rules, limit, i, after, bound, x + 1, back);
        MoreRoomSameWalk(b, rules, limit, i + 1, o.index, placed, roomier, from);
        if !ok && !back.out {
          MoreRoomSameTries(b, rules, limit, i, after, bound, x + 1, back, roomier, from + (u.count - t.count));
        }
      }
    }
  }

  // ---------------------------------------------------------------- boards too small to outrun the limit

  /** At most this many calls from batch `i` on: one, and one search of the later batches for each of its starts. */
  function Calls(b: Board, i: nat): nat
    requires i <= |b.options|
    decreases |b.options| - i
  {
    if i == |b.options| then 1 else 1 + |b.options[i]| * Calls(b, i + 1)
  }

  /** A search makes no more calls than its starts allow, so a board of few starts is always settled. */
  lemma {:induction false} SmallBoardsSettle(b: Board, rules: Rules, limit: nat, i: nat, after: int, t: Trail)
    requires ValidBoard(b) && ValidTrail(b, t) && i <= |b.options|
    ensures var u := Explore(b, rules, limit, i, after, t).1;
      u.count <= t.count + Calls(b, i) && (!t.out && t.count + Calls(b, i) <= limit ==> !u.out)
    decreases |b.options| - i, 1, 0
  {
    hide ValidBoard, Put, Open, Drop, TryStarts, Empty, Hopeless, Bound;
    SuccessIsWithinLimit(b, rules, limit, i, after, t);
    if t.count < limit && i < |b.options| {
      TriesSettle(b, rules, limit, i, after, Bound(b, rules, i, Empty(b, t.slots, |b.days|)), 0, t.(count := t.count + 1));
    }
  }

  lemma {:induction false} TriesSettle(b: Board, rules: Rules, limit: nat, i: nat, after: int, bound: int, x: nat, t: Trail)
    requires ValidBoard(b) && ValidTrail(b, t) && i < |b.options| && x <= |b.options[i]|
    ensures TryStarts(b, rules, limit, i, after, bound, x, t).1.count <= t.count + (|b.options[i]| - x) * Calls(b, i + 1)
    decreases |b.options| - i, 0, |b.options[i]| - x
  {
    hide ValidBoard, ValidStart, Ascending, Put, Open, Drop, Explore, TryStarts, Calls;
    if x == |b.options[i]| {
      TryEnds(b, rules, limit, i, after, bound, t);
    } else {
      var o := b.options[i][x];
      StartFacts(b, i, o);
      OneFewer(|b.options[i]| - x, Calls(b, i + 1));
      if o.index <= after || o.index > bound || !Open(t.slots, o.dates) {
        TrySkips(b, rules, limit, i, after, bound, x, t);
        TriesSettle(b, rules, limit, i, after, bound, x + 1, t);
      } else {
        TryEnters(b, rules, limit, i, after, bound, x, t);
        SmallBoardsSettle(b, rules, limit, i + 1, o.index, Forth(t, i, o));
        var u := Explore(b, rules, limit, i + 1, o.index, Forth(t, i, o)).1;
        TriesSettle(b, rules, limit, i, after, bound, x + 1, Back(u, i, o));
      }
    }
  }

  lemma {:induction false} OneFewer(n: nat, c: nat)
    requires n >= 1
    ensures n * c == (n - 1) * c + c && (n - 1) * c >= 0
  {
  }

  // ---------------------------------------------------------------- the table and the dates agree

  lemma {:induction false} PutAllIsTable(b: Board, dates: seq<seq<Day>>, plan: seq<Start>)
    ensures PutAll(Table(b, dates), plan) == Table(b, dates + DatesOf(plan))
    decreases |plan|
  {
    hide Put;
    if plan == [] {
      assert dates + DatesOf(plan) == dates;
    } else {
      var more := dates + [plan[0].dates];
      assert more[..|dates|] == dates;
      assert more + DatesOf(plan[1..]) == dates + DatesOf(plan);
      PutAllIsTable(b, more, plan[1..]);
    }
  }

  /** Batches without dates add nothing to the table. */
  lemma {:induction false} UndatedAddsNothing(b: Board, dates: seq<seq<Day>>, i: nat)
    requires i <= |dates| && forall j :: i <= j < |dates| ==> dates[j] == []
    ensures Table(b, dates) == Table(b, dates[..i])
    decreases |dates|
  {
    hide Put;
    if i == |dates| {
      assert dates[..i] == dates;
    } else {
      var n := |dates| - 1;
      UndatedAddsNothing(b, dates[..n], i);
      assert dates[..n][..i] == dates[..i];
      PutNothing(Table(b, dates[..n]));
    }
  }

  lemma {:induction false} PutNothing(slots: Slots)
    ensures Put(slots, []) == slots
  {
    var none: seq<Day> := [];
    forall d | d in slots
      ensures Put(slots, none)[d] == slots[d]
    {
      assert StepsOn(none, 0, d) == [];
    }
    assert Put(slots, none) == slots;
  }

  /** Dating the first undated batch pushes exactly its journey. */
  lemma {:induction false} DatingPushes(b: Board, dates: seq<seq<Day>>, i: nat, journey: seq<Day>)
    requires i < |dates| && forall j :: i <= j < |dates| ==> dates[j] == []
    ensures Table(b, dates[i := journey]) == Put(Table(b, dates), journey)
  {
    hide Put;
    var dated := dates[i := journey];
    UndatedAddsNothing(b, dates, i);
    UndatedAddsNothing(b, dated, i + 1);
    assert dated[..i + 1][..i] == dates[..i];
  }

  /** Every batch with dates follows one of its own starts. */
  ghost predicate Dated(b: Board, dates: seq<seq<Day>>) {
    && |dates| == |b.options|
    && forall j :: 0 <= j < |dates| ==> Ascending(dates[j]) && forall s :: 0 <= s < |dates[j]| ==> dates[j][s] in b.days
  }

  /** The table holds exactly the touches of the batches that have dates, all inside the window. */
  ghost predicate Consistent(b: Board, t: Trail) {
    t.slots == Table(b, t.dates) && Dated(b, t.dates)
  }

  /** Trying the next batch's start keeps the table and the dates in step: the nested call is entered as this one was. */
  lemma {:induction false} TakingKeepsConsistent(b: Board, t: Trail, i: nat, o: Start)
    requires ValidBoard(b) && ValidTrail(b, t) && i < |b.options| && o in b.options[i]
    requires Consistent(b, t) && Undated(t, i)
    ensures Consistent(b, Forth(t, i, o)) && Undated(Forth(t, i, o), i + 1)
  {
    hide ValidBoard, ValidStart, Put, Table;
    StartFacts(b, i, o);
    DatingPushes(b, t.dates, i, o.dates);
  }

  lemma {:induction false} SameDates(b: Board, t: Trail, u: Trail, i: nat)
    requires Consistent(b, t) && Undated(t, i) && u.slots == t.slots && u.dates == t.dates
    ensures Consistent(b, u) && Undated(u, i)
  {
  }

  /** A nested call that failed as it was entered leaves, once its start is taken back, what was there before. */
  lemma {:induction false} TakenBack(b: Board, t: Trail, i: nat, o: Start, u: Trail)
    requires ValidBoard(b) && ValidTrail(b, t) && i < |b.options| && o in b.options[i] && Undated(t, i)
    requires u.slots == Forth(t, i, o).slots && u.dates == Forth(t, i, o).dates
    ensures Back(u, i, o).slots == t.slots && Back(u, i, o).dates == t.dates
  {
    hide ValidBoard, ValidStart, Put, Drop;
    StartFacts(b, i, o);
    DropUndoesPut(t.slots, o.dates);
  }

  /**
   * From a table that holds exactly the touches of the dated batches, every call of the search,
   * however deep, ends in such a table, and one that fails ends in the very table and dates it began with.
   */
  lemma {:induction false} ExploreConsistent(b: Board, rules: Rules, limit: nat, i: nat, after: int, t: Trail)
    requires ValidBoard(b) && ValidTrail(b, t) && i <= |b.options|
    requires Consistent(b, t) && Undated(t, i)
    ensures var (ok, u) := Explore(b, rules, limit, i, after, t);
      Consistent(b, u) && (!ok ==> u.slots == t.slots && u.dates == t.dates)
    decreases |b.options| - i, 1, 0
  {
    hide ValidBoard, Put, Table, Empty, Hopeless, Bound, TryStarts;
    if t.count < limit && i < |b.options| {
      var empty := Empty(b, t.slots, |b.days|);
      TryConsistent(b, rules, limit, i, after, Bound(b, rules, i, empty), 0, t.(count := t.count + 1));
    }
  }

  lemma {:induction false} TryConsistent(b: Board, rules: Rules, limit: nat, i: nat, after: int, bound: int, x: nat, t: Trail)
    requires ValidBoard(b) && ValidTrail(b, t) && i < |b.options| && x <= |b.options[i]|
    requires Consistent(b, t) && Undated(t, i)
    ensures var (ok, u) := TryStarts(b, rules, limit, i, after, bound, x, t);
      Consistent(b, u) && (!ok ==> u.slots == t.slots && u.dates == t.dates)
    decreases |b.options| - i, 0, |b.options[i]| - x
  {
    hide ValidBoard, ValidStart, Ascending, Put, Drop, Open, Explore, TryStarts, Table;
    if x == |b.options[i]| {
      TryEnds(b, rules, limit, i, after, bound, t);
    } else {
      var o := b.options[i][x];
      StartFacts(b, i, o);
      if o.index <= after || o.index > bound || !Open(t.slots, o.dates) {
        TrySkips(b, rules, limit, i, after, bound, x, t);
        TryConsistent(b, rules, limit, i, after, bound, x + 1, t);
      } else {
        TryEnters(b, rules, limit, i, after, bound, x, t);
        TakingKeepsConsistent(b, t, i, o);
        ExploreConsistent(b, rules, limit, i + 1, o.index, Forth(t, i, o));
        var (ok, u) := Explore(b, rules, limit, i + 1, o.index, Forth(t, i, o));
        if !ok {
          TakenBack(b, t, i, o, u);
          TryConsistent(b, rules, limit, i, after, bound, x + 1, Back(u, i, o));
        }
      }
    }
  }

  lemma {:induction false} StillDated(b: Board, dates: seq<seq<Day>>)
    requires Dated(b, dates)
    ensures |dates| == |b.options|
    ensures forall j :: 0 <= j < |dates| ==> Ascending(dates[j]) && forall s :: 0 <= s < |dates[j]| ==> dates[j][s] in b.days
  {
    hide Ascending;
  }

  /** Popping the last dated batch leaves the table of those before it. */
  lemma {:induction false} TableTakenBack(b: Board, dates: seq<seq<Day>>, i: nat)
    requires i < |dates| && Ascending(dates[i])
    ensures Drop(Table(b, dates[..i + 1]), dates[i]) == Table(b, dates[..i])
  {
    hide Put, Drop;
    assert dates[..i + 1][..i] == dates[..i];
    DropUndoesPut(Table(b, dates[..i]), dates[i]);
  }

  lemma {:induction false} NothingPlaced(b: Board, t: Trail)
    requires ValidTrail(b, t) && Undated(t, 0) && t.slots == Clear(b)
    ensures Consistent(b, t)
  {
    UndatedAddsNothing(b, t.dates, 0);
    assert t.dates[..0] == [];
  }

  lemma {:induction false} TableOfNone(b: Board)
    ensures Table(b, []) == Clear(b)
  {
  }
}
