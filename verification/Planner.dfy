/**
 * One FO's search state as buildCampaignCalendar keeps it (src/lib/campaign-planner.ts), updated in
 * place: a push for every start tried and a pop for every start taken back.
 */
module Planner {
  import opened Days
  import opened Placement
  import opened Search
  import opened Fewest

  class FoPlanner {
    const b: Board
    var slots: Slots
    var dates: seq<seq<Day>>
    var count: nat
    var out: bool
    var failed: set<Key>

    function State(): Trail
      reads this
    {
      Trail(slots, dates, count, out, failed)
    }

    ghost predicate Valid()
      reads this
    {
      ValidBoard(b) && ValidTrail(b, State())
    }

    constructor (board: Board)
      requires ValidBoard(board)
      ensures Valid() && b == board && State() == Start0(board, 0)
    {
      b := board;
      slots := Clear(board);
      dates := seq(|board.options|, _ => []);
      count, out, failed := 0, false, {};
    }

    /** take: push a journey's steps, one day at a time. */
    method Take(i: nat, o: Start)
      requires Valid() && i < |b.options| && o in b.options[i]
      modifies this
      ensures Valid() && State() == Forth(old(State()), i, o)
    {
      hide ValidBoard, ValidStart, Ascending;
      StartFacts(b, i, o);
      ghost var before := slots;
      var step := 0;
      while step < |o.dates|
        invariant 0 <= step <= |o.dates|
        invariant slots.Keys == before.Keys
        invariant forall d :: d in before ==> slots[d] == before[d] + StepsOn(o.dates, step, d)
        invariant dates == old(dates) && count == old(count) && out == old(out) && failed == old(failed)
      {
        var d := o.dates[step];
        slots := slots[d := slots[d] + [step]];
        step := step + 1;
      }
      assert slots == Put(before, o.dates);
      dates := dates[i := o.dates];
    }

    /** drop: pop each of the journey's days and forget its dates. */
    method Untake(i: nat, o: Start)
      requires Valid() && i < |b.options| && o in b.options[i]
      modifies this
      ensures Valid() && State() == Back(old(State()), i, o)
    {
      hide ValidBoard, ValidStart;
      StartFacts(b, i, o);
      PopDates(o.dates);
      dates := dates[i := []];
    }

    method PopDates(journey: seq<Day>)
      requires Valid() && Ascending(journey) && forall s :: 0 <= s < |journey| ==> journey[s] in b.days
      modifies this
      ensures Valid() && State() == old(State()).(slots := Drop(old(slots), journey))
    {
      hide ValidBoard, Ascending, Drop;
      ghost var before := slots;
      DropNothing(slots);
      assert journey[..0] == [];
      var step := 0;
      while step < |journey|
        invariant 0 <= step <= |journey|
        invariant slots == Drop(before, journey[..step])
        invariant dates == old(dates) && count == old(count) && out == old(out) && failed == old(failed)
      {
        var d := journey[step];
        DropStep(before, journey, step);
        slots := slots[d := if slots[d] != [] then slots[d][..|slots[d]| - 1] else slots[d]];
        step := step + 1;
      }
      assert journey[..step] == journey;
    }

    /**
     * search and place: one call of the backtracking walk. Every call, nested ones included, is
     * entered and left with the table holding exactly the touches of the batches that have dates; a
     * call that fails leaves the table and the dates as it found them.
     */
    method Walk(rules: Rules, limit: nat, i: nat, after: int) returns (ok: bool)
      requires Valid() && i <= |b.options|
      requires Consistent(b, State()) && Undated(State(), i)
      modifies this
      ensures Valid() && (ok, State()) == Explore(b, rules, limit, i, after, old(State()))
      ensures Consistent(b, State())
      ensures !ok ==> slots == old(slots) && dates == old(dates)
      decreases |b.options| - i
    {
      hide ValidBoard, ValidStart, Ascending, Put, Drop, Open, TryStarts, Table, Undated, Dated, Consistent, Empty, Hopeless, Bound;
      count := count + 1;
      SameDates(b, old(State()), State(), i);
      if count > limit {
        out := true;
        SameDates(b, old(State()), State(), i);
        return false;
      }
      var empty := Empty(b, slots, |b.days|);
      if i == |b.options| {
        return |empty| <= rules.k;
      }
      if Hopeless(b, rules, i, after, empty) || Key(i, after, slots) in failed {
        return false;
      }
      var bound := Bound(b, rules, i, empty);
      ghost var entered := State();
      var x := 0;
      while x < |b.options[i]|
        invariant 0 <= x <= |b.options[i]| && Valid()
        invariant slots == entered.slots && dates == entered.dates
        invariant Consistent(b, State()) && Undated(State(), i)
        invariant TryStarts(b, rules, limit, i, after, bound, x, State())
               == TryStarts(b, rules, limit, i, after, bound, 0, entered)
      {
        var o := b.options[i][x];
        StartFacts(b, i, o);
        if o.index <= after || o.index > bound || !Open(slots, o.dates) {
          TrySkips(b, rules, limit, i, after, bound, x, State());
          x := x + 1;
          continue;
        }
        TryEnters(b, rules, limit, i, after, bound, x, State());
        ghost var before := State();
        TakingKeepsConsistent(b, before, i, o);
        x := x + 1;
        Take(i, o);
        ok := Walk(rules, limit, i + 1, o.index);
        if ok {
          return;
        }
        TakenBack(b, before, i, o, State());
        Untake(i, o);
        SameDates(b, before, State(), i);
        if out {
          return false;
        }
      }
      TryEnds(b, rules, limit, i, after, bound, State());
      ghost var ended := State();
      failed := failed + {Key(i, after, slots)};
      SameDates(b, ended, State(), i);
      return false;
    }

    /** The greedy choice for one batch, cheapest first seen. */
    method Pick(i: nat, after: int) returns (pick: Option<Pick>)
      requires Valid() && i < |b.options| && -1 <= after
      modifies this
      ensures Valid() && (pick, count) == Choose(b, i, after, old(slots), old(count))
      ensures State() == old(State()).(count := count)
    {
      hide ValidBoard, ValidStart, Ascending, Open, Passed, Busy, Latest;
      pick := None;
      var skipped: nat, last, x := 0, after, 0;
      while x < |b.options[i]|
        invariant 0 <= x <= |b.options[i]| && after <= last
        invariant State() == old(State()).(count := count)
        invariant PickStart(b, i, after, slots, x, pick, skipped, last, count)
               == Choose(b, i, after, old(slots), old(count))
      {
        var o := b.options[i][x];
        StartFacts(b, i, o);
        x := x + 1;
        if o.index <= after {
          continue;
        }
        if o.index > Latest(b, i) || (pick.Some? && skipped >= pick.value.cost) {
          return;
        }
        count := count + 1;
        skipped := skipped + Passed(b, slots, last + 1, o.index);
        last := if last < o.index - 1 then o.index - 1 else last;
        if !Open(slots, o.dates) {
          continue;
        }
        var cost := skipped + Busy(slots, o.dates);
        if pick.None? || cost < pick.value.cost {
          pick := Some(Fewest.Pick(o, cost));
        }
      }
    }

    /** The greedy pass. It leaves the table holding what it placed, whether or not it finished. */
    method GreedyPass() returns (ok: bool)
      requires Valid() && Undated(State(), 0) && slots == Clear(b)
      modifies this
      ensures Valid() && (ok, State()) == Greedy(b, 0, -1, old(State()))
      ensures Consistent(b, State())
    {
      hide ValidBoard, ValidStart, Ascending, Put, Choose, Table, Eligible, Cost;
      var i, after := 0, -1;
      NothingPlaced(b, State());
      while i < |b.options|
        invariant 0 <= i <= |b.options| && Valid() && -1 <= after < |b.days|
        invariant Undated(State(), i) && Consistent(b, State())
        invariant Greedy(b, i, after, State()) == Greedy(b, 0, -1, old(State()))
      {
        ChooseIsCheapest(b, i, after, slots, count);
        var pick := Pick(i, after);
        if pick.None? {
          return false;
        }
        var o := pick.value.start;
        assert Eligible(b, i, after, slots, o);
        EligibleStart(b, i, after, slots, o);
        DatingPushes(b, dates, i, o.dates);
        Take(i, o);
        after := o.index;
        i := i + 1;
      }
      return true;
    }

    /** lift: read the plan off the table, then take every batch back, last first. */
    method Lift() returns (l: Lifted)
      requires Valid() && Consistent(b, State())
      modifies this
      ensures Valid() && l == Lifted(old(dates), Quiet(b, old(slots)))
      ensures slots == Clear(b) && Undated(State(), 0) && count == old(count)
    {
      hide ValidBoard, Put, Drop, Ascending, Table, Quiet, Dated;
      StillDated(b, dates);
      l := Lifted(dates, Quiet(b, slots));
      ghost var was := dates;
      assert was[..|was|] == was;
      var i := |dates|;
      while i > 0
        invariant 0 <= i <= |dates| == |was| == |b.options| && Valid()
        invariant slots == Table(b, was[..i]) && count == old(count)
        invariant forall j :: 0 <= j < i ==> dates[j] == was[j]
        invariant forall j :: i <= j < |dates| ==> dates[j] == []
      {
        i := i - 1;
        TableTakenBack(b, was, i);
        PopDates(dates[i]);
        dates := dates[i := []];
      }
      TableOfNone(b);
      assert was[..0] == [];
    }

    /** Start counting again from `from`, with nothing remembered. */
    method Restart(from: nat)
      requires Valid()
      modifies this
      ensures Valid() && State() == old(State()).(count := from, out := false, failed := {})
    {
      count, out, failed := from, false, {};
    }

    /** Go on from a count and a flag left by the searches before. */
    method Resume(from: nat, flag: bool)
      requires Valid()
      modifies this
      ensures Valid() && State() == old(State()).(count := from, out := flag)
    {
      count, out := from, flag;
    }

    /** upTo(k): a fresh walk with at most `k` empty days, its plan lifted off the table. */
    method UpToK(k: nat, limit: nat) returns (r: UpToResult)
      requires Valid() && slots == Clear(b) && Undated(State(), 0)
      modifies this
      ensures Valid() && slots == Clear(b) && Undated(State(), 0)
      ensures r == UpTo(b, k, limit, old(count)) && count == r.steps
    {
      hide ValidBoard, Put, Explore;
      Restart(count);
      assert dates == Start0(b, count).dates;
      NothingPlaced(b, State());
      var ok := Walk(Rules(k, true), limit, 0, -1);
      var ranOut := out;
      var l := Lift();
      r := UpToResult(if ok then Some(l) else None, ranOut, count);
    }

    /** fewest: a greedy bound, or any arrangement, then the halving. */
    method FewestEmpty(nodeLimit: nat) returns (r: FewestResult)
      requires Valid() && slots == Clear(b) && Undated(State(), 0)
      modifies this
      ensures Valid() && slots == Clear(b) && Undated(State(), 0)
      ensures r == FindFewest(b, nodeLimit)
    {
      hide ValidBoard, UpTo, Greedy, Halve, Suffix, Quiet, Consistent;
      Restart(0);
      assert State() == Start0(b, 0);
      var ok := GreedyPass();
      var best := Lift();
      if !ok {
        var any := UpToK(|b.days|, nodeLimit / 2);
        if any.found.None? {
          return FewestResult(None, any.out, false);
        }
        best := any.found.value;
      }
      var floor := if |b.days| < Suffix(b, 0) then 0 else |b.days| - Suffix(b, 0);
      var budget := count + (if nodeLimit < REFINE_LIMIT then nodeLimit else REFINE_LIMIT);
      var h := Lower(floor, best, budget);
      r := FewestResult(Some(h.best), false, h.settled);
    }

    /** The halving: lower k while the budget lasts. */
    method Lower(floor: nat, first: Lifted, budget: nat) returns (h: Halved)
      requires Valid() && slots == Clear(b) && Undated(State(), 0)
      modifies this
      ensures Valid() && slots == Clear(b) && Undated(State(), 0)
      ensures h == Halve(b, floor, floor, first.quiet - 1, first, old(count), budget, true)
    {
      hide ValidBoard, UpTo, Realized;
      var best, lo: nat, hi, settled := first, floor, first.quiet - 1, true;
      while lo <= hi && count < budget
        invariant Valid() && slots == Clear(b) && Undated(State(), 0)
        invariant floor <= lo && -1 <= hi
        invariant Halve(b, floor, lo, hi, best, count, budget, settled)
               == Halve(b, floor, floor, first.quiet - 1, first, old(count), budget, true)
        decreases hi - lo
      {
        var k := if lo == floor then lo else (lo + hi) / 2;
        var share := (budget - count) / 2;
        var limit := count + (if share < 500 then 500 else share);
        UpToExact(b, k, limit, count);
        var r := UpToK(k, limit);
        if r.found.Some? {
          best, hi := r.found.value, r.found.value.quiet - 1;
        } else {
          lo, settled := k + 1, settled && !r.out;
        }
      }
      h := Halved(best, count, settled && hi < lo);
    }
  }
}
