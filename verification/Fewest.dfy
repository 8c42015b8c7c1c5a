/** The fewest days with nothing to send: src/lib/campaign-planner.ts, `fewest`. */
module Fewest {
  import opened Days
  import opened Placement
  import opened Search

  // ---------------------------------------------------------------- greedy

  datatype Pick = Pick(start: Start, cost: nat)

  /** Empty days at positions from..to-1. */
  function Passed(b: Board, slots: Slots, from: nat, to: nat): nat
    requires to <= |b.days| && OnBoard(b, slots)
  {
    if to <= from then 0
    else Passed(b, slots, from, to - 1) + (if slots[b.days[to - 1]] == [] then 1 else 0)
  }

  /** How many of a journey's days already have something to send. */
  function Busy(slots: Slots, dates: seq<Day>): nat
    requires forall s :: 0 <= s < |dates| ==> dates[s] in slots
  {
    if dates == [] then 0
    else Busy(slots, dates[..|dates| - 1]) + (if slots[dates[|dates| - 1]] != [] then 1 else 0)
  }

  /** The greedy pass over batch `i`'s starts; `skipped` counts the empty days up to `last`. */
  function PickStart(b: Board, i: nat, after: int, slots: Slots, x: nat, pick: Option<Pick>, skipped: nat, last: int, steps: nat): (Option<Pick>, nat)
    requires ValidBoard(b) && OnBoard(b, slots) && i < |b.options| && x <= |b.options[i]|
    requires -1 <= after <= last
    decreases |b.options[i]| - x
  {
    if x == |b.options[i]| then (pick, steps)
    else
      var o := b.options[i][x];
      StartFacts(b, i, o);
      if o.index <= after then PickStart(b, i, after, slots, x + 1, pick, skipped, last, steps)
      else if o.index > Latest(b, i) || (pick.Some? && skipped >= pick.value.cost) then (pick, steps)
      else
        var passed := skipped + Passed(b, slots, last + 1, o.index);
        var reached := if last < o.index - 1 then o.index - 1 else last;
        if !Open(slots, o.dates) then PickStart(b, i, after, slots, x + 1, pick, passed, reached, steps + 1)
        else
          var cost := passed + Busy(slots, o.dates);
          var better := if pick.None? || cost < pick.value.cost then Some(Pick(o, cost)) else pick;
          PickStart(b, i, after, slots, x + 1, better, passed, reached, steps + 1)
  }

  ghost predicate Eligible(b: Board, i: nat, after: int, slots: Slots, o: Start)
    requires ValidBoard(b) && OnBoard(b, slots) && i < |b.options|
  {
    o in b.options[i] && after < o.index <= Latest(b, i) && (StartFacts(b, i, o); Open(slots, o.dates))
  }

  lemma {:induction false} EligibleStart(b: Board, i: nat, after: int, slots: Slots, o: Start)
    requires ValidBoard(b) && OnBoard(b, slots) && i < |b.options| && Eligible(b, i, after, slots, o)
    ensures o in b.options[i] && after < o.index < |b.days| && Ascending(o.dates)
    ensures forall s :: 0 <= s < |o.dates| ==> o.dates[s] in b.days && o.dates[s] in slots
    ensures Open(slots, o.dates)
  {
    StartFacts(b, i, o);
  }

  /** Days left empty for good by starting at `o`, plus its touchpoints on days already in use. */
  ghost function Cost(b: Board, i: nat, after: int, slots: Slots, o: Start): nat
    requires ValidBoard(b) && OnBoard(b, slots) && i < |b.options| && -1 <= after
    requires Eligible(b, i, after, slots, o)
  {
    StartFacts(b, i, o);
    Passed(b, slots, after + 1, o.index) + Busy(slots, o.dates)
  }

  /** Positions from..to-1 whose days have nothing to send. */
  ghost function EmptyBetween(b: Board, slots: Slots, from: nat, to: nat): set<nat>
    requires to <= |b.days| && OnBoard(b, slots)
  {
    set x: nat | from <= x < to && slots[b.days[x]] == []
  }

  /** The touchpoints of a journey that fall on days already in use. */
  ghost function OnUsedDays(slots: Slots, dates: seq<Day>): set<nat>
    requires forall s :: 0 <= s < |dates| ==> dates[s] in slots
  {
    set s: nat | s < |dates| && slots[dates[s]] != []
  }

  lemma {:induction false} PassedCounts(b: Board, slots: Slots, from: nat, to: nat)
    requires to <= |b.days| && OnBoard(b, slots)
    ensures Passed(b, slots, from, to) == |EmptyBetween(b, slots, from, to)|
  {
    var all := EmptyBetween(b, slots, from, to);
    if to <= from {
      assert all == {};
    } else {
      PassedCounts(b, slots, from, to - 1);
      var before := EmptyBetween(b, slots, from, to - 1);
      if to - 1 in all {
        assert all == before + {to - 1};
      } else {
        assert all == before;
      }
    }
  }

  lemma {:induction false} BusyCounts(slots: Slots, dates: seq<Day>)
    requires forall s :: 0 <= s < |dates| ==> dates[s] in slots
    ensures Busy(slots, dates) == |OnUsedDays(slots, dates)|
  {
    var all, n := OnUsedDays(slots, dates), |dates|;
    if n == 0 {
      assert all == {};
    } else {
      BusyCounts(slots, dates[..n - 1]);
      var before := OnUsedDays(slots, dates[..n - 1]);
      if n - 1 in all {
        assert all == before + {n - 1};
      } else {
        assert all == before;
      }
    }
  }

  /**
   * What the greedy pass weighs a start by: the days it leaves empty between the batch before it and
   * itself, and its touchpoints on days already in use.
   */
  lemma {:induction false} CostCounts(b: Board, i: nat, after: int, slots: Slots, o: Start)
    requires ValidBoard(b) && OnBoard(b, slots) && i < |b.options| && -1 <= after && Eligible(b, i, after, slots, o)
    ensures o.index <= |b.days| && forall s :: 0 <= s < |o.dates| ==> o.dates[s] in slots
    ensures Cost(b, i, after, slots, o) == |EmptyBetween(b, slots, after + 1, o.index)| + |OnUsedDays(slots, o.dates)|
  {
    hide ValidBoard, Open, Latest, Passed, Busy, EmptyBetween, OnUsedDays;
    EligibleStart(b, i, after, slots, o);
    PassedCounts(b, slots, after + 1, o.index);
    BusyCounts(slots, o.dates);
  }

  /** `pick` is a cheapest eligible start among those before `x`, or there is none. */
  ghost predicate Cheapest(b: Board, i: nat, after: int, slots: Slots, x: nat, pick: Option<Pick>)
    requires ValidBoard(b) && OnBoard(b, slots) && i < |b.options| && -1 <= after && x <= |b.options[i]|
  {
    && (pick.Some? ==>
        && Eligible(b, i, after, slots, pick.value.start)
        && pick.value.cost == Cost(b, i, after, slots, pick.value.start))
    && forall y :: 0 <= y < x && Eligible(b, i, after, slots, b.options[i][y]) ==>
         pick.Some? && pick.value.cost <= Cost(b, i, after, slots, b.options[i][y])
  }

  lemma {:induction false} PassedSplits(b: Board, slots: Slots, from: nat, mid: nat, to: nat)
    requires from <= mid <= to <= |b.days| && OnBoard(b, slots)
    ensures Passed(b, slots, from, to) == Passed(b, slots, from, mid) + Passed(b, slots, mid, to)
  {
    if mid < to {
      PassedSplits(b, slots, from, mid, to - 1);
    }
  }

  /** A start that is not eligible leaves the pick as it is. */
  lemma {:induction false} CheapestSkips(b: Board, i: nat, after: int, slots: Slots, x: nat, pick: Option<Pick>)
    requires ValidBoard(b) && OnBoard(b, slots) && i < |b.options| && -1 <= after && x < |b.options[i]|
    requires Cheapest(b, i, after, slots, x, pick) && !Eligible(b, i, after, slots, b.options[i][x])
    ensures Cheapest(b, i, after, slots, x + 1, pick)
  {
    hide ValidBoard, Eligible, Cost;
  }

  /** An eligible start replaces a dearer pick. */
  lemma {:induction false} CheapestTakes(b: Board, i: nat, after: int, slots: Slots, x: nat, pick: Option<Pick>, better: Option<Pick>)
    requires ValidBoard(b) && OnBoard(b, slots) && i < |b.options| && -1 <= after && x < |b.options[i]|
    requires Cheapest(b, i, after, slots, x, pick) && Eligible(b, i, after, slots, b.options[i][x])
    requires var cost := Cost(b, i, after, slots, b.options[i][x]);
      better == if pick.None? || cost < pick.value.cost then Some(Pick(b.options[i][x], cost)) else pick
    ensures Cheapest(b, i, after, slots, x + 1, better)
  {
    hide ValidBoard, Eligible, Cost;
  }

  /** Once the days left empty cost as much as the pick, no later start is cheaper. */
  lemma {:induction false} CheapestStops(b: Board, i: nat, after: int, slots: Slots, x: nat, pick: Option<Pick>, last: int)
    requires ValidBoard(b) && OnBoard(b, slots) && i < |b.options| && x < |b.options[i]|
    requires -1 <= after <= last < b.options[i][x].index
    requires Cheapest(b, i, after, slots, x, pick)
    requires b.options[i][x].index > Latest(b, i) ||
      (pick.Some? && Passed(b, slots, after + 1, last + 1) >= pick.value.cost)
    ensures Cheapest(b, i, after, slots, |b.options[i]|, pick)
  {
    hide ValidBoard, ValidStart, Ascending, Passed, Open, Busy, Latest;
    LaterStarts(b, i, x);
    forall y | x <= y < |b.options[i]| && Eligible(b, i, after, slots, b.options[i][y])
      ensures pick.Some? && pick.value.cost <= Cost(b, i, after, slots, b.options[i][y])
    {
      StartFacts(b, i, b.options[i][y]);
      PassedSplits(b, slots, after + 1, last + 1, b.options[i][y].index);
    }
  }

  /** One turn of the pass over starts: passing over a start too early, stopping, and going on past it. */
  lemma {:induction false} PickStays(b: Board, i: nat, after: int, slots: Slots, x: nat, pick: Option<Pick>, last: int, steps: nat)
    requires ValidBoard(b) && OnBoard(b, slots) && i < |b.options| && x < |b.options[i]| && -1 <= after <= last < |b.days|
    ensures var o, skipped := b.options[i][x], Passed(b, slots, after + 1, last + 1);
      && (o.index <= after ==> PickStart(b, i, after, slots, x, pick, skipped, last, steps) == PickStart(b, i, after, slots, x + 1, pick, skipped, last, steps))
      && (o.index > after && (o.index > Latest(b, i) || (pick.Some? && skipped >= pick.value.cost)) ==>
            PickStart(b, i, after, slots, x, pick, skipped, last, steps) == (pick, steps))
  {
    hide ValidBoard, ValidStart, Ascending, Open, Busy, Latest, Passed;
  }

  lemma {:induction false} PickEnds(b: Board, i: nat, after: int, slots: Slots, pick: Option<Pick>, last: int, steps: nat)
    requires ValidBoard(b) && OnBoard(b, slots) && i < |b.options| && -1 <= after <= last < |b.days|
    ensures PickStart(b, i, after, slots, |b.options[i]|, pick, Passed(b, slots, after + 1, last + 1), last, steps) == (pick, steps)
  {
  }

  lemma {:induction false} PickGoesOn(b: Board, i: nat, after: int, slots: Slots, x: nat, pick: Option<Pick>, last: int, steps: nat)
    requires ValidBoard(b) && OnBoard(b, slots) && i < |b.options| && x < |b.options[i]| && -1 <= after <= last < |b.days|
    requires var o := b.options[i][x]; last < o.index <= Latest(b, i) && (pick.Some? ==> Passed(b, slots, after + 1, last + 1) < pick.value.cost)
    ensures var o := b.options[i][x];
      && o.index <= |b.days| && forall s :: 0 <= s < |o.dates| ==> o.dates[s] in slots
    ensures var o := b.options[i][x]; var passed := Passed(b, slots, after + 1, o.index); var cost := passed + Busy(slots, o.dates);
      var better := if Open(slots, o.dates) && (pick.None? || cost < pick.value.cost) then Some(Pick(o, cost)) else pick;
      PickStart(b, i, after, slots, x, pick, Passed(b, slots, after + 1, last + 1), last, steps) == PickStart(b, i, after, slots, x + 1, better, passed, o.index - 1, steps + 1)
  {
    hide ValidBoard, ValidStart, Ascending, Open, Busy, Latest, Passed;
    StartFacts(b, i, b.options[i][x]);
    PassedSplits(b, slots, after + 1, last + 1, b.options[i][x].index);
  }

  /** The pass returns a cheapest eligible start: stopping early misses none, and ties go to the first. */
  lemma {:induction false} PickIsCheapest(b: Board, i: nat, after: int, slots: Slots, x: nat, pick: Option<Pick>, last: int, steps: nat)
    requires ValidBoard(b) && OnBoard(b, slots) && i < |b.options| && x <= |b.options[i]|
    requires -1 <= after <= last < |b.days|
    requires last == after || (x > 0 && b.options[i][x - 1].index == last + 1)
    requires Cheapest(b, i, after, slots, x, pick)
    ensures Cheapest(b, i, after, slots, |b.options[i]|, PickStart(b, i, after, slots, x, pick, Passed(b, slots, after + 1, last + 1), last, steps).0)
    decreases |b.options[i]| - x
  {
    hide ValidBoard, ValidStart, Ascending, Open, Busy, Latest, Passed, Cheapest, PickStart;
    if x == |b.options[i]| {
      PickEnds(b, i, after, slots, pick, last, steps);
    } else {
      var o := b.options[i][x];
      StartFacts(b, i, o);
      if x > 0 {
        LaterStarts(b, i, x - 1);
      }
      if o.index <= after {
        PickStays(b, i, after, slots, x, pick, last, steps);
        CheapestSkips(b, i, after, slots, x, pick);
        PickIsCheapest(b, i, after, slots, x + 1, pick, last, steps);
      } else if o.index > Latest(b, i) || (pick.Some? && Passed(b, slots, after + 1, last + 1) >= pick.value.cost) {
        PickStays(b, i, after, slots, x, pick, last, steps);
        CheapestStops(b, i, after, slots, x, pick, last);
      } else {
        PickGoesOn(b, i, after, slots, x, pick, last, steps);
        if !Open(slots, o.dates) {
          CheapestSkips(b, i, after, slots, x, pick);
          PickIsCheapest(b, i, after, slots, x + 1, pick, o.index - 1, steps + 1);
        } else {
          var cost := Passed(b, slots, after + 1, o.index) + Busy(slots, o.dates);
          var better := if pick.None? || cost < pick.value.cost then Some(Pick(o, cost)) else pick;
          CheapestTakes(b, i, after, slots, x, pick, better);
          PickIsCheapest(b, i, after, slots, x + 1, better, o.index - 1, steps + 1);
        }
      }
    }
  }

  lemma {:induction false} LaterStarts(b: Board, i: nat, x: nat)
    requires ValidBoard(b) && i < |b.options| && x < |b.options[i]|
    ensures forall y :: x < y < |b.options[i]| ==> b.options[i][x].index < b.options[i][y].index
  {
    hide ValidStart;
    assert ValidOptions(b.days, b.options[i]);
  }

  lemma {:induction false} PassedNone(b: Board, slots: Slots, from: nat)
    requires from <= |b.days| && OnBoard(b, slots)
    ensures Passed(b, slots, from, from) == 0
  {
  }

  /** The greedy choice for batch `i`. */
  function Choose(b: Board, i: nat, after: int, slots: Slots, steps: nat): (Option<Pick>, nat)
    requires ValidBoard(b) && OnBoard(b, slots) && i < |b.options| && -1 <= after
  {
    PickStart(b, i, after, slots, 0, None, 0, after, steps)
  }

  lemma {:induction false} ChooseIsCheapest(b: Board, i: nat, after: int, slots: Slots, steps: nat)
    requires ValidBoard(b) && OnBoard(b, slots) && i < |b.options| && -1 <= after < |b.days|
    ensures Cheapest(b, i, after, slots, |b.options[i]|, Choose(b, i, after, slots, steps).0)
  {
    hide ValidBoard, PickStart, Latest, Open, Busy;
    PassedNone(b, slots, after + 1);
    PickIsCheapest(b, i, after, slots, 0, None, after, steps);
  }

  /** The greedy pass from batch `i` on: no backtracking, so it may fail where a plan exists. */
  function Greedy(b: Board, i: nat, after: int, t: Trail): (r: (bool, Trail))
    requires ValidBoard(b) && ValidTrail(b, t) && i <= |b.options| && -1 <= after
    ensures ValidTrail(b, r.1)
    decreases |b.options| - i
  {
    if i == |b.options| then (true, t)
    else
      var (pick, steps) := Choose(b, i, after, t.slots, t.count);
      if pick.None? then (false, t.(count := steps))
      else Greedy(b, i + 1, pick.value.start.index, Forth(t.(count := steps), i, pick.value.start))
  }

  /** What the greedy pass finds is a completion. */
  lemma {:induction false} GreedyCompletes(b: Board, i: nat, after: int, t: Trail)
    requires ValidBoard(b) && ValidTrail(b, t) && i <= |b.options| && -1 <= after < |b.days|
    ensures var (ok, u) := Greedy(b, i, after, t);
      ok ==> Completed(b, Quiet(b, u.slots), i, after, t, u)
    decreases |b.options| - i
  {
    hide ValidBoard, ValidStart, Ascending, Open, Put, Latest, Choose, Quiet;
    var (ok, u) := Greedy(b, i, after, t);
    if i == |b.options| {
      NothingLeft(b, Quiet(b, u.slots), i, after, t, u);
    } else {
      var (pick, steps) := Choose(b, i, after, t.slots, t.count);
      ChooseIsCheapest(b, i, after, t.slots, t.count);
      if pick.Some? {
        var o := pick.value.start;
        StartFacts(b, i, o);
        var placed := Forth(t.(count := steps), i, o);
        GreedyCompletes(b, i + 1, o.index, placed);
        if ok {
          PlacedFirst(b, Quiet(b, u.slots), i, after, t.(count := steps), o, u);
          var plan: seq<Start> :| CompletedBy(b, Quiet(b, u.slots), i, after, t.(count := steps), u, plan);
          assert CompletedBy(b, Quiet(b, u.slots), i, after, t, u, plan);
        }
      }
    }
  }

  /** The greedy pass counts the first start it may take, and never counts back. */
  lemma {:induction false} GreedyCountsOne(b: Board, t: Trail)
    requires ValidBoard(b) && ValidTrail(b, t) && b.options[0][0].index <= Latest(b, 0)
    ensures Greedy(b, 0, -1, t).1.count >= t.count + 1
  {
    hide ValidBoard, Put, Open, PickStart, Latest;
    BoardFacts(b);
    var (pick, steps) := Choose(b, 0, -1, t.slots, t.count);
    ChooseCountsOne(b, t.slots, t.count);
    ChooseIsCheapest(b, 0, -1, t.slots, t.count);
    if pick.Some? {
      EligibleStart(b, 0, -1, t.slots, pick.value.start);
      GreedyNeverLess(b, 1, pick.value.start.index, Forth(t.(count := steps), 0, pick.value.start));
    }
  }

  lemma {:induction false} ChooseCountsOne(b: Board, slots: Slots, steps: nat)
    requires ValidBoard(b) && OnBoard(b, slots) && b.options[0][0].index <= Latest(b, 0)
    ensures Choose(b, 0, -1, slots, steps).1 >= steps + 1
  {
    hide Open, Busy, Latest, Passed;
    var o := b.options[0][0];
    StartFacts(b, 0, o);
    var passed := 0 + Passed(b, slots, 0, o.index);
    var reached := if -1 < o.index - 1 then o.index - 1 else -1;
    var better := if !Open(slots, o.dates) then None else Some(Pick(o, passed + Busy(slots, o.dates)));
    PickNeverLess(b, 0, -1, slots, 1, better, passed, reached, steps + 1);
  }

  lemma {:induction false} PickNeverLess(b: Board, i: nat, after: int, slots: Slots, x: nat, pick: Option<Pick>, skipped: nat, last: int, steps: nat)
    requires ValidBoard(b) && OnBoard(b, slots) && i < |b.options| && x <= |b.options[i]| && -1 <= after <= last
    ensures PickStart(b, i, after, slots, x, pick, skipped, last, steps).1 >= steps
    decreases |b.options[i]| - x
  {
    hide ValidBoard, ValidStart, Ascending, Open, Busy, Latest, Passed;
    if x < |b.options[i]| {
      var o := b.options[i][x];
      StartFacts(b, i, o);
      if o.index <= after {
        PickNeverLess(b, i, after, slots, x + 1, pick, skipped, last, steps);
      } else if o.index <= Latest(b, i) && (pick.None? || skipped < pick.value.cost) {
        var passed := skipped + Passed(b, slots, last + 1, o.index);
        var reached := if last < o.index - 1 then o.index - 1 else last;
        var better := if !Open(slots, o.dates) then pick
          else var cost := passed + Busy(slots, o.dates); if pick.None? || cost < pick.value.cost then Some(Pick(o, cost)) else pick;
        PickNeverLess(b, i, after, slots, x + 1, better, passed, reached, steps + 1);
      }
    }
  }

  lemma {:induction false} GreedyNeverLess(b: Board, i: nat, after: int, t: Trail)
    requires ValidBoard(b) && ValidTrail(b, t) && i <= |b.options| && -1 <= after
    ensures Greedy(b, i, after, t).1.count >= t.count
    decreases |b.options| - i
  {
    hide ValidBoard, Put, Open, PickStart;
    if i < |b.options| {
      PickNeverLess(b, i, after, t.slots, 0, None, 0, after, t.count);
      var (pick, steps) := Choose(b, i, after, t.slots, t.count);
      if pick.Some? {
        GreedyNeverLess(b, i + 1, pick.value.start.index, Forth(t.(count := steps), i, pick.value.start));
      }
    }
  }

  /** A search whose count is already past half the limit is spent unless the greedy pass finds a plan. */
  lemma {:induction false} SpentAtOnce(b: Board, nodeLimit: nat)
    requires ValidBoard(b) && b.options[0][0].index <= Latest(b, 0) && nodeLimit / 2 <= 1
    requires forall plan :: !Legal(b, plan)
    ensures FindFewest(b, nodeLimit) == FewestResult(None, true, false)
  {
    hide ValidBoard, Halve, Greedy, Legal, Quiet, Latest;
    var t := Start0(b, 0);
    var (ok, u) := Greedy(b, 0, -1, t);
    GreedyCountsOne(b, t);
    BoardFacts(b);
    GreedyCompletes(b, 0, -1, t);
    if ok {
      LiftIsLegal(b, Quiet(b, u.slots), t, u);
      RealizedIsLegal(b, Lifted(u.dates, Quiet(b, u.slots)));
    }
  }

  // ---------------------------------------------------------------- upTo and the halving

  /** A plan taken off the table: each batch's dates, and the days left empty. */
  datatype Lifted = Lifted(plan: seq<seq<Day>>, quiet: nat)

  function Start0(b: Board, steps: nat): (t: Trail)
    ensures ValidTrail(b, t) && Undated(t, 0)
  {
    Trail(Clear(b), seq(|b.options|, _ => []), steps, false, {})
  }

  datatype UpToResult = UpToResult(found: Option<Lifted>, out: bool, steps: nat)

  function UpTo(b: Board, k: nat, limit: nat, steps: nat): UpToResult
    requires ValidBoard(b)
  {
    var (ok, u) := Explore(b, Rules(k, true), limit, 0, -1, Start0(b, steps));
    UpToResult(if ok then Some(Lifted(u.dates, Quiet(b, u.slots))) else None, u.out, u.count)
  }

  /** The plan is one the placement rules allow, with exactly that many empty days. */
  ghost predicate Realized(b: Board, l: Lifted) {
    exists plan :: Legal(b, plan) && l.plan == DatesOf(plan) && l.quiet == |QuietDays(b.days, plan)|
  }

  /** A completion from nothing is a legal plan with the empty days the table shows. */
  lemma {:induction false} LiftIsLegal(b: Board, k: nat, t: Trail, u: Trail)
    requires ValidBoard(b) && ValidTrail(b, t) && t.slots == Clear(b)
    requires Completed(b, k, 0, -1, t, u)
    ensures OnBoard(b, u.slots) && Quiet(b, u.slots) <= k && Realized(b, Lifted(u.dates, Quiet(b, u.slots)))
  {
    hide ValidBoard, Put, Quiet, Finishes, QuietDays;
    var plan: seq<Start> :| CompletedBy(b, k, 0, -1, t, u, plan);
    WalkIsLegal(b, k, plan);
    assert t.dates[..0] + DatesOf(plan) == DatesOf(plan);
    TableOfNone(b);
    PutAllIsTable(b, [], plan);
    assert [] + DatesOf(plan) == DatesOf(plan);
    OptionsAreJourneys(b, plan);
    QuietAfter(b, plan);
  }

  /** upTo(k) that did not run out finds a plan exactly when one with at most k empty days exists. */
  lemma {:induction false} UpToExact(b: Board, k: nat, limit: nat, steps: nat)
    requires ValidBoard(b)
    ensures var r := UpTo(b, k, limit, steps);
      && (r.found.Some? ==> r.found.value.quiet <= k && Realized(b, r.found.value))
      && (r.found.None? && !r.out ==> forall plan :: Legal(b, plan) ==> |QuietDays(b.days, plan)| > k)
  {
    hide ValidBoard, Explore, Quiet, Legal, QuietDays, Realized;
    var t := Start0(b, steps);
    ExploreExact(b, Rules(k, true), limit, 0, -1, t);
    var (ok, u) := Explore(b, Rules(k, true), limit, 0, -1, t);
    if ok {
      LiftIsLegal(b, k, t, u);
    } else {
      ArrangementExists(b, k);
    }
  }

  /** `settled`: the halving ended because nothing was left to try, and no search in it ran out. */
  datatype Halved = Halved(best: Lifted, steps: nat, settled: bool)

  function Halve(b: Board, floor: nat, lo: nat, hi: int, best: Lifted, steps: nat, budget: nat, settled: bool): Halved
    requires ValidBoard(b) && floor <= lo && -1 <= hi
    decreases hi - lo
  {
    if lo <= hi && steps < budget then
      var k := if lo == floor then lo else (lo + hi) / 2;
      var share := (budget - steps) / 2;
      var r := UpTo(b, k, steps + (if share < 500 then 500 else share), steps);
      UpToExact(b, k, steps + (if share < 500 then 500 else share), steps);
      if r.found.Some? then Halve(b, floor, lo, r.found.value.quiet - 1, r.found.value, r.steps, budget, settled)
      else Halve(b, floor, k + 1, hi, best, r.steps, budget, settled && !r.out)
    else Halved(best, steps, settled && hi < lo)
  }

  /** No plan has fewer than `lo` empty days. */
  ghost predicate AtLeast(b: Board, lo: nat) {
    forall plan :: Legal(b, plan) ==> lo <= |QuietDays(b.days, plan)|
  }

  lemma {:induction false} HalveExact(b: Board, floor: nat, lo: nat, hi: int, best: Lifted, steps: nat, budget: nat, settled: bool)
    requires ValidBoard(b) && floor <= lo && hi == best.quiet - 1
    requires Realized(b, best) && (settled ==> AtLeast(b, lo))
    ensures var h := Halve(b, floor, lo, hi, best, steps, budget, settled);
      && Realized(b, h.best) && h.best.quiet <= best.quiet
      && (h.settled ==> AtLeast(b, h.best.quiet))
    decreases hi - lo
  {
    hide ValidBoard, UpTo, Realized, Legal, QuietDays;
    if lo <= hi && steps < budget {
      var k := if lo == floor then lo else (lo + hi) / 2;
      var share := (budget - steps) / 2;
      var limit := steps + (if share < 500 then 500 else share);
      var r := UpTo(b, k, limit, steps);
      UpToExact(b, k, limit, steps);
      if r.found.Some? {
        HalveExact(b, floor, lo, r.found.value.quiet - 1, r.found.value, r.steps, budget, settled);
      } else {
        HalveExact(b, floor, k + 1, hi, best, r.steps, budget, settled && !r.out);
      }
    }
  }

  /** A plan of `touches` touchpoints leaves at least the remaining days empty. */
  lemma {:induction false} TouchesBoundQuiet(b: Board)
    requires ValidBoard(b)
    ensures forall plan :: Legal(b, plan) ==> |b.days| <= |QuietDays(b.days, plan)| + Suffix(b, 0)
  {
    hide ValidBoard, Legal, QuietDays, Finishes;
    forall plan | Legal(b, plan)
      ensures |b.days| <= |QuietDays(b.days, plan)| + Suffix(b, 0)
    {
      WalkIsLegal(b, |QuietDays(b.days, plan)|, plan);
      NeedsTouches(b, |QuietDays(b.days, plan)|, 0, -1, Clear(b), plan);
      ClearQuiet(b);
    }
  }


  /** Search steps spent lowering the number of empty days once a plan with some is found. */
  const REFINE_LIMIT: nat := 4000

  /** `spent`: no plan was found, but only because a search ran out. */
  datatype FewestResult = FewestResult(best: Option<Lifted>, spent: bool, settled: bool)

  function FindFewest(b: Board, nodeLimit: nat): FewestResult
    requires ValidBoard(b)
  {
    var (ok, u) := Greedy(b, 0, -1, Start0(b, 0));
    var any := UpTo(b, |b.days|, nodeLimit / 2, u.count);
    if !ok && any.found.None? then FewestResult(None, any.out, false)
    else
      var best := if ok then Lifted(u.dates, Quiet(b, u.slots)) else any.found.value;
      var steps := if ok then u.count else any.steps;
      var floor := if |b.days| < Suffix(b, 0) then 0 else |b.days| - Suffix(b, 0);
      var budget := steps + (if nodeLimit < REFINE_LIMIT then nodeLimit else REFINE_LIMIT);
      var h := Halve(b, floor, floor, best.quiet - 1, best, steps, budget, true);
      FewestResult(Some(h.best), false, h.settled)
  }

  /**
   * What `fewest` promises: the plan it keeps is legal; no plan and not spent means none exists;
   * and when the halving settled, no legal plan leaves fewer days empty.
   */
  lemma {:induction false} FewestExact(b: Board, nodeLimit: nat)
    requires ValidBoard(b)
    ensures var r := FindFewest(b, nodeLimit);
      && (r.best.Some? ==> Realized(b, r.best.value))
      && (r.best.None? && !r.spent ==> forall plan :: !Legal(b, plan))
      && (r.best.Some? && r.settled ==> AtLeast(b, r.best.value.quiet))
  {
    hide ValidBoard, Halve, UpTo, Greedy, Realized, Legal, QuietDays, Suffix;
    var t := Start0(b, 0);
    var (ok, u) := Greedy(b, 0, -1, t);
    BoardFacts(b);
    GreedyCompletes(b, 0, -1, t);
    if ok {
      LiftIsLegal(b, Quiet(b, u.slots), t, u);
    }
    UpToExact(b, |b.days|, nodeLimit / 2, u.count);
    forall plan | Legal(b, plan)
      ensures |QuietDays(b.days, plan)| <= |b.days|
    {
      QuietAtMostAll(b, plan);
    }
    var any := UpTo(b, |b.days|, nodeLimit / 2, u.count);
    if ok || any.found.Some? {
      TouchesBoundQuiet(b);
      var best := if ok then Lifted(u.dates, Quiet(b, u.slots)) else any.found.value;
      var steps := if ok then u.count else any.steps;
      var floor := if |b.days| < Suffix(b, 0) then 0 else |b.days| - Suffix(b, 0);
      var budget := steps + (if nodeLimit < REFINE_LIMIT then nodeLimit else REFINE_LIMIT);
      HalveExact(b, floor, floor, best.quiet - 1, best, steps, budget, true);
    }
  }

  /** All the starts of the batches from `i` on. */
  function AllStarts(b: Board, i: nat): nat
    requires i <= |b.options|
    decreases |b.options| - i
  {
    if i == |b.options| then 0 else |b.options[i]| + AllStarts(b, i + 1)
  }

  /** On a board whose starts are few enough for half the limit, a plan is found exactly when there is one. */
  lemma {:induction false} SmallBoardsArePlanned(b: Board, nodeLimit: nat)
    requires ValidBoard(b) && AllStarts(b, 0) + Calls(b, 0) <= nodeLimit / 2
    ensures FindFewest(b, nodeLimit).best.Some? <==> exists plan :: Legal(b, plan)
  {
    hide ValidBoard, Halve, Greedy, Realized, Legal, Explore, Calls, AllStarts;
    var t := Start0(b, 0);
    var (ok, u) := Greedy(b, 0, -1, t);
    FewestExact(b, nodeLimit);
    GreedyCounts(b, 0, -1, t);
    SmallBoardsSettle(b, Rules(|b.days|, true), nodeLimit / 2, 0, -1, Start0(b, u.count));
    var r := FindFewest(b, nodeLimit);
    if r.best.Some? {
      RealizedIsLegal(b, r.best.value);
    }
  }

  lemma {:induction false} RealizedIsLegal(b: Board, l: Lifted)
    requires Realized(b, l)
    ensures exists plan :: Legal(b, plan)
  {
    hide Legal;
  }

  /** The greedy pass counts each start at most once. */
  lemma {:induction false} GreedyCounts(b: Board, i: nat, after: int, t: Trail)
    requires ValidBoard(b) && ValidTrail(b, t) && i <= |b.options| && -1 <= after
    ensures Greedy(b, i, after, t).1.count <= t.count + AllStarts(b, i)
    decreases |b.options| - i
  {
    hide ValidBoard, Put, Open, Choose, Cost, Eligible;
    if i < |b.options| {
      ChooseCounts(b, i, after, t.slots, t.count);
      var (pick, steps) := Choose(b, i, after, t.slots, t.count);
      if pick.Some? {
        var o := pick.value.start;
        GreedyCounts(b, i + 1, o.index, Forth(t.(count := steps), i, o));
      }
    }
  }

  lemma {:induction false} ChooseCounts(b: Board, i: nat, after: int, slots: Slots, steps: nat)
    requires ValidBoard(b) && OnBoard(b, slots) && i < |b.options| && -1 <= after
    ensures Choose(b, i, after, slots, steps).1 <= steps + |b.options[i]|
  {
    hide ValidBoard, PickStart;
    PickCounts(b, i, after, slots, 0, None, 0, after, steps);
  }

  lemma {:induction false} PickCounts(b: Board, i: nat, after: int, slots: Slots, x: nat, pick: Option<Pick>, skipped: nat, last: int, steps: nat)
    requires ValidBoard(b) && OnBoard(b, slots) && i < |b.options| && x <= |b.options[i]| && -1 <= after <= last
    ensures PickStart(b, i, after, slots, x, pick, skipped, last, steps).1 <= steps + |b.options[i]| - x
    decreases |b.options[i]| - x
  {
    hide ValidBoard, ValidStart, Ascending, Open, Busy, Latest, Passed;
    if x < |b.options[i]| {
      var o := b.options[i][x];
      StartFacts(b, i, o);
      if o.index <= after {
        PickCounts(b, i, after, slots, x + 1, pick, skipped, last, steps);
      } else if o.index <= Latest(b, i) && (pick.None? || skipped < pick.value.cost) {
        var passed := skipped + Passed(b, slots, last + 1, o.index);
        var reached := if last < o.index - 1 then o.index - 1 else last;
        var better := if !Open(slots, o.dates) then pick
          else var cost := passed + Busy(slots, o.dates); if pick.None? || cost < pick.value.cost then Some(Pick(o, cost)) else pick;
        PickCounts(b, i, after, slots, x + 1, better, passed, reached, steps + 1);
      }
    }
  }

  /**
   * With calls to spare the halving settles: every search in it ends by itself, and it goes on until
   * nothing is left to try.
   */
  lemma {:induction false} HalveSettles(b: Board, floor: nat, lo: nat, hi: int, best: Lifted, steps: nat, budget: nat)
    requires ValidBoard(b) && floor <= lo && -1 <= hi && hi == best.quiet - 1 && Calls(b, 0) <= 500
    requires lo <= hi ==> steps + (hi - lo + 1) * Calls(b, 0) <= budget
    ensures Halve(b, floor, lo, hi, best, steps, budget, true).settled
    decreases hi - lo
  {
    hide ValidBoard, UpTo, Realized, Calls;
    if lo <= hi {
      SomeCalls(b, 0);
      MoreTimes(hi - lo + 1, Calls(b, 0));
      if steps < budget {
        var k := if lo == floor then lo else (lo + hi) / 2;
        var share := (budget - steps) / 2;
        var limit := steps + (if share < 500 then 500 else share);
        UpToSettles(b, k, limit, steps);
        var r := UpTo(b, k, limit, steps);
        UpToExact(b, k, limit, steps);
        var from, to := if r.found.Some? then lo else k + 1, if r.found.Some? then r.found.value.quiet - 1 else hi;
        if from <= to {
          FewerTimes(to - from + 1, hi - lo + 1, Calls(b, 0));
        }
        HalveSettles(b, floor, from, to, if r.found.Some? then r.found.value else best, r.steps, budget);
      }
    }
  }

  lemma {:induction false} UpToSettles(b: Board, k: nat, limit: nat, steps: nat)
    requires ValidBoard(b) && steps + Calls(b, 0) <= limit
    ensures !UpTo(b, k, limit, steps).out && UpTo(b, k, limit, steps).steps <= steps + Calls(b, 0)
  {
    hide ValidBoard, Explore, Calls;
    SmallBoardsSettle(b, Rules(k, true), limit, 0, -1, Start0(b, steps));
  }

  lemma {:induction false} SomeCalls(b: Board, i: nat)
    requires i <= |b.options|
    ensures Calls(b, i) >= 1
    decreases |b.options| - i
  {
    if i < |b.options| {
      SomeCalls(b, i + 1);
    }
  }

  lemma {:induction false} MoreTimes(n: nat, c: nat)
    requires n >= 1 && c >= 1
    ensures n * c >= c >= 1
  {
    assert n * c == (n - 1) * c + c;
  }

  lemma {:induction false} FewerTimes(m: nat, n: nat, c: nat)
    requires m < n
    ensures m * c + c <= n * c
  {
    assert n * c - (m + 1) * c == (n - m - 1) * c;
  }

  /**
   * So on a board of few starts the plan kept really is the best: no legal plan leaves fewer days
   * empty. Nothing here depends on how the search went.
   */
  lemma {:induction false} SmallBoardsAreLeast(b: Board, nodeLimit: nat)
    requires ValidBoard(b) && AllStarts(b, 0) + Calls(b, 0) <= nodeLimit / 2 && Calls(b, 0) <= 500
    requires |b.days| * Calls(b, 0) <= nodeLimit && |b.days| * Calls(b, 0) <= REFINE_LIMIT
    ensures var best := FindFewest(b, nodeLimit).best;
      && (best.Some? <==> exists plan :: Legal(b, plan))
      && (best.Some? ==> Realized(b, best.value) && AtLeast(b, best.value.quiet))
  {
    hide ValidBoard, Halve, UpTo, Greedy, Realized, Legal, Suffix, Calls, AllStarts, AtLeast, Quiet;
    SmallBoardsArePlanned(b, nodeLimit);
    FewestExact(b, nodeLimit);
    FirstIsRealized(b, nodeLimit);
    var (ok, u) := Greedy(b, 0, -1, Start0(b, 0));
    var any := UpTo(b, |b.days|, nodeLimit / 2, u.count);
    if ok || any.found.Some? {
      var best := if ok then Lifted(u.dates, Quiet(b, u.slots)) else any.found.value;
      var steps := if ok then u.count else any.steps;
      var floor := if |b.days| < Suffix(b, 0) then 0 else |b.days| - Suffix(b, 0);
      RealizedAtMostAll(b, best);
      if floor <= best.quiet - 1 {
        AtMostTimes(best.quiet - floor, |b.days|, Calls(b, 0));
      }
      HalveSettles(b, floor, floor, best.quiet - 1, best, steps, steps + (if nodeLimit < REFINE_LIMIT then nodeLimit else REFINE_LIMIT));
    }
  }

  lemma {:induction false} AtMostTimes(m: nat, n: nat, c: nat)
    requires m <= n
    ensures m * c <= n * c
  {
    assert n * c - m * c == (n - m) * c;
  }

  lemma {:induction false} RealizedAtMostAll(b: Board, l: Lifted)
    requires ValidBoard(b) && Realized(b, l)
    ensures l.quiet <= |b.days|
  {
    hide ValidBoard, Legal, QuietDays;
    var plan :| Legal(b, plan) && l.plan == DatesOf(plan) && l.quiet == |QuietDays(b.days, plan)|;
    QuietAtMostAll(b, plan);
  }

  /** The plan the halving starts from is a legal one. */
  lemma {:induction false} FirstIsRealized(b: Board, nodeLimit: nat)
    requires ValidBoard(b)
    ensures var (ok, u) := Greedy(b, 0, -1, Start0(b, 0)); var any := UpTo(b, |b.days|, nodeLimit / 2, u.count);
      && (ok ==> Realized(b, Lifted(u.dates, Quiet(b, u.slots))))
      && (any.found.Some? ==> Realized(b, any.found.value))
  {
    hide ValidBoard, UpTo, Greedy, Realized;
    var (ok, u) := Greedy(b, 0, -1, Start0(b, 0));
    BoardFacts(b);
    GreedyCompletes(b, 0, -1, Start0(b, 0));
    if ok {
      LiftIsLegal(b, Quiet(b, u.slots), Start0(b, 0), u);
    }
    UpToExact(b, |b.days|, nodeLimit / 2, u.count);
  }

  /** What the fewest-days search finds under one limit it finds under any larger one. */
  lemma {:induction false} MoreRoomStillFinds(b: Board, limit: nat, roomier: nat)
    requires ValidBoard(b) && limit <= roomier && FindFewest(b, limit).best.Some?
    ensures FindFewest(b, roomier).best.Some?
  {
    hide ValidBoard, Halve, Greedy, Explore, Quiet;
    var (ok, u) := Greedy(b, 0, -1, Start0(b, 0));
    if !ok {
      var rules, t := Rules(|b.days|, true), Start0(b, u.count);
      SuccessIsWithinLimit(b, rules, limit / 2, 0, -1, t);
      MoreRoomSameWalk(b, rules, limit / 2, 0, -1, t, roomier / 2, u.count);
      assert Recounted(t, u.count) == t;
    }
  }

  lemma {:induction false} QuietAtMostAll(b: Board, plan: seq<Start>)
    requires ValidBoard(b) && Legal(b, plan)
    ensures |QuietDays(b.days, plan)| <= |b.days|
  {
    OptionsAreJourneys(b, plan);
    QuietAfter(b, plan);
  }
}
