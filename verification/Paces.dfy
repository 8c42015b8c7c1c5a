/** The pace for one FO's queue: choosePace of src/lib/campaign-fit.ts. */
module Paces {
  import opened Days
  import opened Sorting
  import opened Starts
  import opened Queues
  import opened Calendar
  import opened Measure

  /** The draft schema's own limit on new people a day. */
  const MAX_PACE: nat := 500

  datatype Failing = NoStart | TooManyPeople | NotFound

  datatype PaceResult = Pace(pace: nat, quiet: nat) | NoPace(why: Failing)

  /** Days left empty under one count of batches, or None when it cannot be planned. */
  type Schedule = (nat, nat, Fill) -> Option<nat>

  /** A count of batches, and the lowest pace that gives it. */
  datatype Tier = Tier(count: nat, pace: nat)

  function Longest(runs: seq<Run>): nat {
    if runs == [] then 0
    else
      var before := Longest(runs[..|runs| - 1]);
      if before < runs[|runs| - 1].length then runs[|runs| - 1].length else before
  }

  /** The highest pace worth trying. */
  function Top(runs: seq<Run>): nat {
    if Longest(runs) < MAX_PACE then Longest(runs) else MAX_PACE
  }

  predicate Counted(tiers: seq<Tier>, count: nat) {
    exists i :: 0 <= i < |tiers| && tiers[i].count == count
  }

  /** Every count reached by a pace up to `top`, at the first pace that reaches it. */
  function Tiers(runs: seq<Run>, top: nat): seq<Tier> {
    if top == 0 then []
    else
      var before := Tiers(runs, top - 1);
      if Counted(before, Count(runs, top)) then before else before + [Tier(Count(runs, top), top)]
  }

  function Only(tiers: seq<Tier>, keep: Tier -> bool): seq<Tier> {
    if tiers == [] then []
    else Only(tiers[..|tiers| - 1], keep) + (if keep(tiers[|tiers| - 1]) then [tiers[|tiers| - 1]] else [])
  }

  function Fewer(): (Tier, Tier) -> bool {
    (a: Tier, b: Tier) => a.count <= b.count
  }

  function More(): (Tier, Tier) -> bool {
    (a: Tier, b: Tier) => b.count <= a.count
  }

  /** The batches the request gives. */
  function Asked(runs: seq<Run>, target: nat): nat
    requires target >= 1 && Top(runs) >= 1
  {
    Count(runs, if target < Top(runs) then target else Top(runs))
  }

  /** At or under the request first, fewest batches first; then above it, most batches first. */
  function Order(runs: seq<Run>, target: nat): seq<Tier>
    requires target >= 1 && Top(runs) >= 1
  {
    var tiers, at := Tiers(runs, Top(runs)), Asked(runs, target);
    Sort(Fewer(), Only(tiers, (t: Tier) => t.count >= at)) + Sort(More(), Only(tiers, (t: Tier) => t.count < at))
  }

  /** The first tier that is neither crowded nor sparse and fills every day, within `tries` attempts. */
  ghost function FirstFilling(w: Window, d: Draft, runs: seq<Run>, order: seq<Tier>, schedule: Schedule, tries: nat): Option<Tier>
    requires ValidDraft(d) && |d.flows| >= 1 && forall i :: 0 <= i < |order| ==> order[i].pace >= 1
  {
    if order == [] then None
    else
      var t := order[0];
      if Crowded(w, d, runs, t.pace) || Sparse(w, d, runs, t.pace) then FirstFilling(w, d, runs, order[1..], schedule, tries)
      else if tries == 0 then None
      else if schedule(t.pace, t.count, EveryDay) == Some(0) then Some(t)
      else FirstFilling(w, d, runs, order[1..], schedule, tries - 1)
  }

  datatype Quietest = Quietest(pace: nat, quiet: nat)

  /** The tier with the fewest empty days; above the request only when none at or under it worked. */
  ghost function FewestQuiet(w: Window, d: Draft, runs: seq<Run>, order: seq<Tier>, at: nat, schedule: Schedule, tries: nat, best: Option<Quietest>): Option<Quietest>
    requires ValidDraft(d) && forall i :: 0 <= i < |order| ==> order[i].pace >= 1
  {
    if order == [] then best
    else
      var t := order[0];
      if best.Some? && t.count < at then best
      else if Crowded(w, d, runs, t.pace) then FewestQuiet(w, d, runs, order[1..], at, schedule, tries, best)
      else if tries == 0 then best
      else
        var quiet := schedule(t.pace, t.count, FewestEmpty);
        var better := if quiet.Some? && (best.None? || quiet.value < best.value.quiet) then Some(Quietest(t.pace, quiet.value)) else best;
        FewestQuiet(w, d, runs, order[1..], at, schedule, tries - 1, better)
  }

  predicate ValidRuns(runs: seq<Run>) {
    runs != [] && forall i :: 0 <= i < |runs| ==> runs[i].length >= 1
  }

  /** Some outreach of the queue cannot start on any day. */
  ghost predicate CannotStart(w: Window, d: Draft, runs: seq<Run>)
    requires ValidDraft(d)
  {
    exists i :: 0 <= i < |runs| && (StepsAreValid(d, runs[i].flow); StartCount(w, Steps(d, runs[i].flow)) == 0)
  }

  ghost function PaceFor(w: Window, d: Draft, runs: seq<Run>, target: nat, schedule: Schedule, maxTries: nat): PaceResult
    requires ValidDraft(d) && ValidRuns(runs) && target >= 1
  {
    TopIsPositive(runs);
    OrderIsTiers(runs, target);
    var order := Order(runs, target);
    if CannotStart(w, d, runs) then NoPace(NoStart)
    else
      var filling := FirstFilling(w, d, runs, order, schedule, maxTries);
      if filling.Some? then Pace(filling.value.pace, 0)
      else
        var best := FewestQuiet(w, d, runs, order, Asked(runs, target), schedule, maxTries, None);
        if best.Some? then Pace(best.value.pace, best.value.quiet)
        else if Crowded(w, d, runs, Top(runs)) then NoPace(TooManyPeople)
        else NoPace(NotFound)
  }

  /** The loop that asks for every day. */
  method FindFilling(w: Window, d: Draft, runs: seq<Run>, order: seq<Tier>, schedule: Schedule, maxTries: nat) returns (found: Option<Tier>)
    requires ValidDraft(d) && |d.flows| >= 1 && forall i :: 0 <= i < |order| ==> order[i].pace >= 1
    ensures found == FirstFilling(w, d, runs, order, schedule, maxTries)
  {
    hide ValidDraft, ValidFlow, Crowded, Sparse, Count, RunTouches;
    var n, tries := 0, 0;
    while n < |order|
      invariant 0 <= n <= |order| && tries <= maxTries
      invariant FirstFilling(w, d, runs, order[n..], schedule, maxTries - tries) == FirstFilling(w, d, runs, order, schedule, maxTries)
    {
      var t := order[n];
      assert order[n..][1..] == order[n + 1..];
      var m := MeasureRuns(w, d, runs, t.pace);
      n := n + 1;
      if m.crowded || m.sparse {
        continue;
      }
      if tries == maxTries {
        return None;
      }
      tries := tries + 1;
      if schedule(t.pace, t.count, EveryDay) == Some(0) {
        return Some(t);
      }
    }
    return None;
  }

  /** The loop that asks for the fewest empty days. */
  method FindQuietest(w: Window, d: Draft, runs: seq<Run>, order: seq<Tier>, at: nat, schedule: Schedule, maxTries: nat) returns (best: Option<Quietest>)
    requires ValidDraft(d) && forall i :: 0 <= i < |order| ==> order[i].pace >= 1
    ensures best == FewestQuiet(w, d, runs, order, at, schedule, maxTries, None)
  {
    hide ValidDraft, ValidFlow, Crowded, Count, RunTouches;
    best := None;
    var n, tries := 0, 0;
    while n < |order|
      invariant 0 <= n <= |order| && tries <= maxTries
      invariant FewestQuiet(w, d, runs, order[n..], at, schedule, maxTries - tries, best)
             == FewestQuiet(w, d, runs, order, at, schedule, maxTries, None)
    {
      var t := order[n];
      assert order[n..][1..] == order[n + 1..];
      if best.Some? && t.count < at {
        return;
      }
      var m := MeasureRuns(w, d, runs, t.pace);
      n := n + 1;
      if m.crowded {
        continue;
      }
      if tries == maxTries {
        return;
      }
      tries := tries + 1;
      var quiet := schedule(t.pace, t.count, FewestEmpty);
      if quiet.Some? && (best.None? || quiet.value < best.value.quiet) {
        best := Some(Quietest(t.pace, quiet.value));
      }
    }
  }

  /** choosePace: refuse an outreach with no start day, then ask for every day, then for the fewest empty. */
  method ChoosePace(w: Window, d: Draft, runs: seq<Run>, target: nat, schedule: Schedule, maxTries: nat) returns (r: PaceResult)
    requires ValidDraft(d) && ValidRuns(runs) && target >= 1
    ensures r == PaceFor(w, d, runs, target, schedule, maxTries)
  {
    hide ValidDraft, ValidFlow, WorkingDays, StartsOf, Crowded, Sparse, Order, Tiers, Count, Sort, RunTouches, FirstFilling, FewestQuiet;
    TopIsPositive(runs);
    OrderIsTiers(runs, target);
    AtLeastOneFlow(d);
    var i := 0;
    while i < |runs|
      invariant 0 <= i <= |runs|
      invariant forall j :: 0 <= j < i ==> (StepsAreValid(d, runs[j].flow); StartCount(w, Steps(d, runs[j].flow)) != 0)
    {
      StepsAreValid(d, runs[i].flow);
      var starts := StartsFor(w, Steps(d, runs[i].flow));
      if starts == 0 {
        return NoPace(NoStart);
      }
      i := i + 1;
    }
    var order := Order(runs, target);
    var filling := FindFilling(w, d, runs, order, schedule, maxTries);
    if filling.Some? {
      return Pace(filling.value.pace, 0);
    }
    var best := FindQuietest(w, d, runs, order, Asked(runs, target), schedule, maxTries);
    if best.Some? {
      return Pace(best.value.pace, best.value.quiet);
    }
    var m := MeasureRuns(w, d, runs, Top(runs));
    return NoPace(if m.crowded then TooManyPeople else NotFound);
  }

  // ---------------------------------------------------------------- the tiers

  lemma {:induction false} TopIsPositive(runs: seq<Run>)
    requires ValidRuns(runs)
    ensures Top(runs) >= 1
  {
  }

  /** A tier is a count and the lowest pace that gives it. */
  predicate IsTier(runs: seq<Run>, top: nat, t: Tier) {
    && 1 <= t.pace <= top
    && t.count == Count(runs, t.pace)
    && forall b :: 1 <= b < t.pace ==> Count(runs, b) != t.count
  }

  lemma {:induction false} TiersExact(runs: seq<Run>, top: nat)
    ensures forall t :: t in Tiers(runs, top) <==> IsTier(runs, top, t)
    ensures forall b :: 1 <= b <= top ==> Counted(Tiers(runs, top), Count(runs, b))
  {
    hide Count;
    if top > 0 {
      TiersExact(runs, top - 1);
      var before := Tiers(runs, top - 1);
      forall t
        ensures IsTier(runs, top, t) <==> t in before || (t == Tier(Count(runs, top), top) && !Counted(before, t.count))
      {
        assert IsTier(runs, top, t) && t.pace < top ==> IsTier(runs, top - 1, t);
        if t == Tier(Count(runs, top), top) && Counted(before, t.count) {
          var i :| 0 <= i < |before| && before[i].count == t.count;
          assert before[i] in before;
        }
        if t == Tier(Count(runs, top), top) && !Counted(before, t.count) {
          assert forall b :: 1 <= b < top ==> Counted(before, Count(runs, b));
        }
      }
      if Counted(before, Count(runs, top)) {
      } else {
        assert Tiers(runs, top)[|before|].count == Count(runs, top);
        forall b | 1 <= b < top
          ensures Counted(Tiers(runs, top), Count(runs, b))
        {
          var i :| 0 <= i < |before| && before[i].count == Count(runs, b);
          assert Tiers(runs, top)[i].count == Count(runs, b);
        }
      }
    }
  }

  lemma {:induction false} OnlyExact(tiers: seq<Tier>, keep: Tier -> bool)
    ensures forall t :: t in Only(tiers, keep) <==> t in tiers && keep(t)
  {
    if tiers != [] {
      OnlyExact(tiers[..|tiers| - 1], keep);
      assert tiers == tiers[..|tiers| - 1] + [tiers[|tiers| - 1]];
    }
  }

  lemma {:induction false} SortHolds(leq: (Tier, Tier) -> bool, s: seq<Tier>)
    ensures forall t :: t in Sort(leq, s) <==> t in s
  {
    SortKeeps(leq, s);
    forall t
      ensures t in Sort(leq, s) <==> t in s
    {
      assert t in multiset(s) <==> t in multiset(Sort(leq, s));
    }
  }

  /** The order tries exactly the tiers, all at or under the request before any above it. */
  lemma {:induction false} OrderIsTiers(runs: seq<Run>, target: nat)
    requires target >= 1 && Top(runs) >= 1
    ensures var order := Order(runs, target);
      && (forall t :: t in order <==> IsTier(runs, Top(runs), t))
      && (forall i :: 0 <= i < |order| ==> IsTier(runs, Top(runs), order[i]))
      && (forall i, j :: 0 <= i < j < |order| && order[j].count >= Asked(runs, target) ==> order[i].count >= Asked(runs, target))
  {
    hide Count, IsTier, Tiers, Only, Sort;
    var tiers, at := Tiers(runs, Top(runs)), Asked(runs, target);
    var low, high := Only(tiers, (t: Tier) => t.count >= at), Only(tiers, (t: Tier) => t.count < at);
    TiersExact(runs, Top(runs));
    OnlyExact(tiers, (t: Tier) => t.count >= at);
    OnlyExact(tiers, (t: Tier) => t.count < at);
    SortHolds(Fewer(), low);
    SortHolds(More(), high);
    var a, b := Sort(Fewer(), low), Sort(More(), high);
    forall i | 0 <= i < |a + b|
      ensures (a + b)[i] in tiers && ((a + b)[i].count >= at <==> i < |a|)
    {
      assert if i < |a| then (a + b)[i] in a else (a + b)[i] in b;
    }
  }

  // ---------------------------------------------------------------- what the choice guarantees

  /** Pace `t.pace` is not crowded, has touchpoints for every day, and fills every day. */
  ghost predicate Fills(w: Window, d: Draft, runs: seq<Run>, schedule: Schedule, t: Tier)
    requires ValidDraft(d) && |d.flows| >= 1
  {
    t.pace >= 1 && !Crowded(w, d, runs, t.pace) && !Sparse(w, d, runs, t.pace) && schedule(t.pace, t.count, EveryDay) == Some(0)
  }

  /** Pace `t.pace` is not crowded and can be planned. */
  ghost predicate Works(w: Window, d: Draft, runs: seq<Run>, schedule: Schedule, t: Tier)
    requires ValidDraft(d)
  {
    t.pace >= 1 && !Crowded(w, d, runs, t.pace) && schedule(t.pace, t.count, FewestEmpty).Some?
  }

  /** `t` fills, and nothing before it in the order does. */
  ghost predicate FirstToFill(w: Window, d: Draft, runs: seq<Run>, schedule: Schedule, order: seq<Tier>, t: Tier)
    requires ValidDraft(d) && |d.flows| >= 1
  {
    exists n :: 0 <= n < |order| && order[n] == t && Fills(w, d, runs, schedule, t) &&
      (forall m :: 0 <= m < n ==> !Fills(w, d, runs, schedule, order[m]))
  }

  /** The loop returns the first tier that fills, and with tries to spare only if there is one. */
  lemma {:induction false} FillingIsFirst(w: Window, d: Draft, runs: seq<Run>, order: seq<Tier>, schedule: Schedule, tries: nat)
    requires ValidDraft(d) && |d.flows| >= 1 && forall i :: 0 <= i < |order| ==> order[i].pace >= 1
    ensures var r := FirstFilling(w, d, runs, order, schedule, tries);
      && (r.Some? ==> FirstToFill(w, d, runs, schedule, order, r.value))
      && (r.None? && tries >= |order| ==> forall t :: t in order ==> !Fills(w, d, runs, schedule, t))
  {
    hide ValidDraft, ValidFlow, Crowded, Sparse;
    if order != [] {
      var t := order[0];
      var skip := Crowded(w, d, runs, t.pace) || Sparse(w, d, runs, t.pace);
      if !Fills(w, d, runs, schedule, t) && (skip || tries > 0) {
        var left := if skip then tries else tries - 1;
        FillingIsFirst(w, d, runs, order[1..], schedule, left);
        var r := FirstFilling(w, d, runs, order[1..], schedule, left);
        if r.Some? {
          var n :| 0 <= n < |order[1..]| && order[1..][n] == r.value && Fills(w, d, runs, schedule, r.value) &&
            (forall m :: 0 <= m < n ==> !Fills(w, d, runs, schedule, order[1..][m]));
          assert order[n + 1] == r.value;
          assert forall m :: 0 < m < n + 1 ==> order[m] == order[1..][m - 1];
        }
        assert order == [t] + order[1..];
      } else if Fills(w, d, runs, schedule, t) && tries > 0 {
        assert order[0] == t;
      }
    }
  }

  /** What the fewest-empty loop has to show for the tiers it was given. */
  ghost predicate QuietestOf(w: Window, d: Draft, runs: seq<Run>, order: seq<Tier>, at: nat, schedule: Schedule, enough: bool, best: Option<Quietest>, r: Option<Quietest>)
    requires ValidDraft(d)
  {
    && (r.Some? ==> r == best || Backed(w, d, runs, order, schedule, r.value, if best.Some? then at else 0))
    && (best.Some? ==> r.Some? && r.value.quiet <= best.value.quiet)
    && (enough ==> forall n :: 0 <= n < |order| && Works(w, d, runs, schedule, order[n]) ==>
          r.Some? && (order[n].count >= at ==>
            && r.value.quiet <= schedule(order[n].pace, order[n].count, FewestEmpty).value
            && (r == best || Backed(w, d, runs, order, schedule, r.value, at))))
  }

  /** Some tier of at least `floor` batches works, at that pace and with that many empty days. */
  ghost predicate Backed(w: Window, d: Draft, runs: seq<Run>, order: seq<Tier>, schedule: Schedule, r: Quietest, floor: nat)
    requires ValidDraft(d)
  {
    exists n :: 0 <= n < |order| && order[n].pace == r.pace && order[n].count >= floor &&
      Works(w, d, runs, schedule, order[n]) && schedule(order[n].pace, order[n].count, FewestEmpty) == Some(r.quiet)
  }

  lemma {:induction false} BackedLater(w: Window, d: Draft, runs: seq<Run>, order: seq<Tier>, schedule: Schedule, r: Quietest, floor: nat, lower: nat)
    requires ValidDraft(d) && order != [] && lower <= floor && Backed(w, d, runs, order[1..], schedule, r, floor)
    ensures Backed(w, d, runs, order, schedule, r, lower)
  {
    hide ValidDraft, Works;
    var n :| 0 <= n < |order[1..]| && order[1..][n].pace == r.pace && order[1..][n].count >= floor &&
      Works(w, d, runs, schedule, order[1..][n]) && schedule(order[1..][n].pace, order[1..][n].count, FewestEmpty) == Some(r.quiet);
    assert order[n + 1] == order[1..][n];
  }

  lemma {:induction false} QuietestIsFewest(w: Window, d: Draft, runs: seq<Run>, order: seq<Tier>, at: nat, schedule: Schedule, tries: nat, best: Option<Quietest>)
    requires ValidDraft(d) && forall i :: 0 <= i < |order| ==> order[i].pace >= 1
    requires forall i, j :: 0 <= i < j < |order| && order[j].count >= at ==> order[i].count >= at
    ensures QuietestOf(w, d, runs, order, at, schedule, tries >= |order|, best, FewestQuiet(w, d, runs, order, at, schedule, tries, best))
  {
    hide ValidDraft, ValidFlow, Crowded;
    if order != [] {
      var t := order[0];
      assert order == [t] + order[1..];
      if best.Some? && t.count < at {
        assert forall n :: 0 <= n < |order| ==> order[n].count < at;
      } else if Crowded(w, d, runs, t.pace) {
        QuietestIsFewest(w, d, runs, order[1..], at, schedule, tries, best);
        QuietestSkips(w, d, runs, order, at, schedule, tries >= |order|, best, FewestQuiet(w, d, runs, order[1..], at, schedule, tries, best));
      } else if tries > 0 {
        var quiet := schedule(t.pace, t.count, FewestEmpty);
        var better := if quiet.Some? && (best.None? || quiet.value < best.value.quiet) then Some(Quietest(t.pace, quiet.value)) else best;
        QuietestIsFewest(w, d, runs, order[1..], at, schedule, tries - 1, better);
        QuietestTakes(w, d, runs, order, at, schedule, tries >= |order|, best, FewestQuiet(w, d, runs, order[1..], at, schedule, tries - 1, better));
      }
    }
  }

  lemma {:induction false} QuietestSkips(w: Window, d: Draft, runs: seq<Run>, order: seq<Tier>, at: nat, schedule: Schedule, enough: bool, best: Option<Quietest>, r: Option<Quietest>)
    requires ValidDraft(d) && order != [] && !Works(w, d, runs, schedule, order[0])
    requires QuietestOf(w, d, runs, order[1..], at, schedule, enough, best, r)
    ensures QuietestOf(w, d, runs, order, at, schedule, enough, best, r)
  {
    hide ValidDraft, ValidFlow, Works, Backed;
    assert forall n :: 0 < n < |order| ==> order[n] == order[1..][n - 1];
    forall floor | r.Some? && Backed(w, d, runs, order[1..], schedule, r.value, floor)
      ensures Backed(w, d, runs, order, schedule, r.value, floor)
    {
      BackedLater(w, d, runs, order, schedule, r.value, floor, floor);
    }
  }

  lemma {:induction false} QuietestTakes(w: Window, d: Draft, runs: seq<Run>, order: seq<Tier>, at: nat, schedule: Schedule, enough: bool, best: Option<Quietest>, r: Option<Quietest>)
    requires ValidDraft(d) && order != [] && order[0].pace >= 1 && !Crowded(w, d, runs, order[0].pace)
    requires forall i, j :: 0 <= i < j < |order| && order[j].count >= at ==> order[i].count >= at
    requires best.None? || order[0].count >= at
    requires var quiet := schedule(order[0].pace, order[0].count, FewestEmpty);
      var better := if quiet.Some? && (best.None? || quiet.value < best.value.quiet) then Some(Quietest(order[0].pace, quiet.value)) else best;
      QuietestOf(w, d, runs, order[1..], at, schedule, enough, better, r)
    ensures QuietestOf(w, d, runs, order, at, schedule, enough, best, r)
  {
    hide ValidDraft, ValidFlow, Crowded, Backed;
    var quiet := schedule(order[0].pace, order[0].count, FewestEmpty);
    var better := if quiet.Some? && (best.None? || quiet.value < best.value.quiet) then Some(Quietest(order[0].pace, quiet.value)) else best;
    assert forall n :: 0 < n < |order| ==> order[n] == order[1..][n - 1];
    forall floor: nat, lower: nat | r.Some? && lower <= floor && Backed(w, d, runs, order[1..], schedule, r.value, floor)
      ensures Backed(w, d, runs, order, schedule, r.value, lower)
    {
      BackedLater(w, d, runs, order, schedule, r.value, floor, lower);
    }
    if better != best && r == better {
      FirstBacks(w, d, runs, order, schedule, better.value);
    }
  }

  lemma {:induction false} FirstBacks(w: Window, d: Draft, runs: seq<Run>, order: seq<Tier>, schedule: Schedule, r: Quietest)
    requires ValidDraft(d) && order != [] && order[0].pace >= 1 && !Crowded(w, d, runs, order[0].pace)
    requires order[0].pace == r.pace && schedule(order[0].pace, order[0].count, FewestEmpty) == Some(r.quiet)
    ensures Backed(w, d, runs, order, schedule, r, order[0].count)
    ensures forall floor: nat :: floor <= order[0].count ==> Backed(w, d, runs, order, schedule, r, floor)
  {
    hide ValidDraft, Crowded;
    assert Works(w, d, runs, schedule, order[0]);
  }

  /** A larger pace never needs more batches. */
  lemma {:induction false} CountFalls(runs: seq<Run>, a: nat, b: nat)
    requires 1 <= a <= b
    ensures Count(runs, b) <= Count(runs, a)
  {
    if runs != [] {
      CountFalls(runs[..|runs| - 1], a, b);
      CeilFalls(runs[|runs| - 1].length, a, b);
    }
  }

  lemma {:induction false} CeilFalls(length: nat, a: nat, b: nat)
    requires 1 <= a <= b
    ensures Ceil(length, b) <= Ceil(length, a)
  {
    if length >= 1 {
      var x := length - 1;
      var q := x / b;
      assert q * b <= x;
      MulGrows(q, a, b);
      DivAtLeast(x, a, q);
    }
  }

  lemma {:induction false} MulGrows(q: nat, a: nat, b: nat)
    requires a <= b
    ensures q * a <= q * b
  {
    assert q * (b - a) >= 0;
  }

  lemma {:induction false} DivAtLeast(x: nat, a: nat, q: nat)
    requires a >= 1 && q * a <= x
    ensures q <= x / a
  {
    var e := q - x / a;
    assert x == (x / a) * a + x % a;
    assert e * a == q * a - (x / a) * a;
    NoSmallMultiple(e, a);
    assert e >= 1 ==> e * a >= a by {
      MulGrows(a, 1, if e >= 1 then e else 1);
    }
  }

  /** A tier at or under the request's batches is a pace at or under the request. */
  lemma {:induction false} AtOrUnderRequest(runs: seq<Run>, target: nat, t: Tier)
    requires target >= 1 && Top(runs) >= 1 && IsTier(runs, Top(runs), t)
    ensures t.count >= Asked(runs, target) <==> t.pace <= target
  {
    hide Count;
    var asked := if target < Top(runs) then target else Top(runs);
    if t.pace <= target {
      CountFalls(runs, t.pace, asked);
    } else {
      CountFalls(runs, asked, t.pace);
      assert Count(runs, asked) != t.count;
    }
  }

  /** Which tiers the choice may rest on. */
  ghost predicate Chosen(w: Window, d: Draft, runs: seq<Run>, schedule: Schedule, r: PaceResult, t: Tier)
    requires ValidDraft(d) && |d.flows| >= 1
  {
    && r.Pace? && IsTier(runs, Top(runs), t) && t.pace == r.pace && !Crowded(w, d, runs, t.pace)
    && ((r.quiet == 0 && Fills(w, d, runs, schedule, t)) || schedule(t.pace, t.count, FewestEmpty) == Some(r.quiet))
  }

  ghost predicate SomeTier(runs: seq<Run>, p: Tier -> bool) {
    exists t :: IsTier(runs, Top(runs), t) && p(t)
  }

  /**
   * The pace chosen is the lowest with its number of batches, is not crowded, and really leaves
   * that many days empty. With tries to spare it is above the request exactly when no pace at or
   * under the request fills every day and either one above does, or none at or under it works at all.
   */
  lemma {:induction false} ChoiceIsRight(w: Window, d: Draft, runs: seq<Run>, target: nat, schedule: Schedule, maxTries: nat)
    requires ValidDraft(d) && |d.flows| >= 1 && ValidRuns(runs) && target >= 1 && Top(runs) >= 1
    ensures var r := PaceFor(w, d, runs, target, schedule, maxTries);
      && (r.Pace? ==> exists t :: Chosen(w, d, runs, schedule, r, t))
      && (r.Pace? && maxTries >= |Order(runs, target)| ==>
          (r.pace > target <==>
            && !SomeTier(runs, (t: Tier) => t.pace <= target && Fills(w, d, runs, schedule, t))
            && (SomeTier(runs, (t: Tier) => Fills(w, d, runs, schedule, t)) ||
                !SomeTier(runs, (t: Tier) => t.pace <= target && Works(w, d, runs, schedule, t)))))
  {
    hide ValidDraft, ValidFlow, CannotStart, Crowded, Sparse, Order, IsTier, FirstFilling, FewestQuiet, Asked, Fills, Works;
    OrderIsTiers(runs, target);
    var order, at := Order(runs, target), Asked(runs, target);
    TiersArePositive(runs, order);
    FillingIsFirst(w, d, runs, order, schedule, maxTries);
    QuietestIsFewest(w, d, runs, order, at, schedule, maxTries, None);
    forall t | IsTier(runs, Top(runs), t)
      ensures t.count >= at <==> t.pace <= target
    {
      AtOrUnderRequest(runs, target, t);
    }
    if !CannotStart(w, d, runs) {
      var r := PaceFor(w, d, runs, target, schedule, maxTries);
      var filling := FirstFilling(w, d, runs, order, schedule, maxTries);
      if filling.Some? {
        FilledChoice(w, d, runs, target, schedule, order, filling.value);
        assert Chosen(w, d, runs, schedule, r, filling.value) by { FillsIsUncrowded(w, d, runs, schedule, filling.value); }
      } else if r.Pace? {
        QuietChoice(w, d, runs, target, schedule, order, at, maxTries, r);
      }
    }
  }

  lemma {:induction false} TiersArePositive(runs: seq<Run>, order: seq<Tier>)
    requires forall i :: 0 <= i < |order| ==> IsTier(runs, Top(runs), order[i])
    ensures forall i :: 0 <= i < |order| ==> order[i].pace >= 1
  {
  }

  lemma {:induction false} FillsIsUncrowded(w: Window, d: Draft, runs: seq<Run>, schedule: Schedule, t: Tier)
    requires ValidDraft(d) && |d.flows| >= 1 && Fills(w, d, runs, schedule, t)
    ensures t.pace >= 1 && !Crowded(w, d, runs, t.pace)
  {
  }

  lemma {:induction false} FilledChoice(w: Window, d: Draft, runs: seq<Run>, target: nat, schedule: Schedule, order: seq<Tier>, t: Tier)
    requires ValidDraft(d) && |d.flows| >= 1
    requires forall x :: x in order <==> IsTier(runs, Top(runs), x)
    requires forall i, j :: 0 <= i < j < |order| && order[j].pace <= target ==> order[i].pace <= target
    requires FirstToFill(w, d, runs, schedule, order, t)
    ensures IsTier(runs, Top(runs), t)
    ensures SomeTier(runs, (x: Tier) => Fills(w, d, runs, schedule, x))
    ensures t.pace > target <==> !SomeTier(runs, (x: Tier) => x.pace <= target && Fills(w, d, runs, schedule, x))
  {
    hide ValidDraft, Fills, IsTier;
    var n :| 0 <= n < |order| && order[n] == t && Fills(w, d, runs, schedule, t) &&
      (forall m :: 0 <= m < n ==> !Fills(w, d, runs, schedule, order[m]));
    assert t in order;
    if x :| IsTier(runs, Top(runs), x) && x.pace <= target && Fills(w, d, runs, schedule, x) {
      assert x in order;
      var m :| 0 <= m < |order| && order[m] == x;
    }
  }

  lemma {:induction false} QuietChoice(w: Window, d: Draft, runs: seq<Run>, target: nat, schedule: Schedule, order: seq<Tier>, at: nat, maxTries: nat, r: PaceResult)
    requires ValidDraft(d) && |d.flows| >= 1 && r.Pace?
    requires forall x :: x in order <==> IsTier(runs, Top(runs), x)
    requires forall t :: IsTier(runs, Top(runs), t) ==> (t.count >= at <==> t.pace <= target)
    requires QuietestOf(w, d, runs, order, at, schedule, maxTries >= |order|, None, Some(Quietest(r.pace, r.quiet)))
    requires maxTries >= |order| ==> forall t :: t in order ==> !Fills(w, d, runs, schedule, t)
    ensures exists t :: Chosen(w, d, runs, schedule, r, t)
    ensures maxTries >= |order| && r.pace > target ==>
      !SomeTier(runs, (t: Tier) => t.pace <= target && Works(w, d, runs, schedule, t))
    ensures maxTries >= |order| && r.pace <= target ==>
      SomeTier(runs, (t: Tier) => t.pace <= target && Works(w, d, runs, schedule, t))
    ensures maxTries >= |order| ==> !SomeTier(runs, (t: Tier) => Fills(w, d, runs, schedule, t))
  {
    hide ValidDraft, IsTier, Fills, Works, Crowded;
    forall n | 0 <= n < |order|
      ensures IsTier(runs, Top(runs), order[n])
    {
      assert order[n] in order;
    }
    var q := Quietest(r.pace, r.quiet);
    assert Backed(w, d, runs, order, schedule, q, 0);
    BackedChoice(w, d, runs, schedule, order, r, 0);
    if maxTries >= |order| {
      if r.pace > target {
        forall t | IsTier(runs, Top(runs), t) && t.pace <= target
          ensures !Works(w, d, runs, schedule, t)
        {
          assert t in order;
          var n :| 0 <= n < |order| && order[n] == t;
          assert Works(w, d, runs, schedule, order[n]) ==> Backed(w, d, runs, order, schedule, q, at);
          if Backed(w, d, runs, order, schedule, q, at) {
            BackedChoice(w, d, runs, schedule, order, r, at);
          }
        }
      } else {
        var t :| IsTier(runs, Top(runs), t) && t.pace == r.pace && Works(w, d, runs, schedule, t);
        assert SomeTier(runs, (t: Tier) => t.pace <= target && Works(w, d, runs, schedule, t));
      }
    }
  }

  lemma {:induction false} BackedChoice(w: Window, d: Draft, runs: seq<Run>, schedule: Schedule, order: seq<Tier>, r: PaceResult, floor: nat)
    requires ValidDraft(d) && |d.flows| >= 1 && r.Pace?
    requires forall n :: 0 <= n < |order| ==> IsTier(runs, Top(runs), order[n])
    requires Backed(w, d, runs, order, schedule, Quietest(r.pace, r.quiet), floor)
    ensures exists t :: Chosen(w, d, runs, schedule, r, t)
    ensures exists t :: IsTier(runs, Top(runs), t) && t.pace == r.pace && t.count >= floor && Works(w, d, runs, schedule, t)
  {
    hide ValidDraft, IsTier, Fills, Crowded;
    var n :| 0 <= n < |order| && order[n].pace == r.pace && order[n].count >= floor &&
      Works(w, d, runs, schedule, order[n]) && schedule(order[n].pace, order[n].count, FewestEmpty) == Some(r.quiet);
    assert Chosen(w, d, runs, schedule, r, order[n]);
  }

  // ---------------------------------------------------------------- and it is the nearest to the request

  /** Of two tiers, the one with fewer batches has the higher pace. */
  lemma {:induction false} FewerIsFaster(runs: seq<Run>, a: Tier, b: Tier)
    requires IsTier(runs, Top(runs), a) && IsTier(runs, Top(runs), b)
    ensures a.count < b.count <==> a.pace > b.pace
  {
    hide Count;
    if a.pace <= b.pace {
      CountFalls(runs, a.pace, b.pace);
    } else {
      CountFalls(runs, b.pace, a.pace);
    }
  }

  /** Tried at or under the request from the highest pace down, and then above it from the lowest up. */
  predicate NearestFirst(order: seq<Tier>, target: nat) {
    forall i, j :: 0 <= i < j < |order| ==> Nearer(order[i].pace, order[j].pace, target)
  }

  /** `a` may be tried before `b`. */
  predicate Nearer(a: nat, b: nat, target: nat) {
    if a <= target then b <= a || target < b else a <= b
  }

  lemma {:induction false} OrderIsNearestFirst(runs: seq<Run>, target: nat)
    requires target >= 1 && Top(runs) >= 1
    ensures NearestFirst(Order(runs, target), target)
  {
    hide Count, IsTier, Tiers, Only, Sort, Asked;
    OrderIsTiers(runs, target);
    var tiers, at, order := Tiers(runs, Top(runs)), Asked(runs, target), Order(runs, target);
    var low, high := Only(tiers, (t: Tier) => t.count >= at), Only(tiers, (t: Tier) => t.count < at);
    SortSorts(Fewer(), low);
    SortSorts(More(), high);
    SplitsAt(runs, target, low, high);
    forall i, j | 0 <= i < j < |order|
      ensures Nearer(order[i].pace, order[j].pace, target)
    {
      AtOrUnderRequest(runs, target, order[i]);
      AtOrUnderRequest(runs, target, order[j]);
      FewerIsFaster(runs, order[i], order[j]);
      FewerIsFaster(runs, order[j], order[i]);
      SortedWithin(Sort(Fewer(), low), Sort(More(), high), at, i, j);
    }
  }

  /** The first half holds the counts of the request and more, the second the others. */
  lemma {:induction false} SplitsAt(runs: seq<Run>, target: nat, low: seq<Tier>, high: seq<Tier>)
    requires target >= 1 && Top(runs) >= 1
    requires low == Only(Tiers(runs, Top(runs)), (t: Tier) => t.count >= Asked(runs, target))
    requires high == Only(Tiers(runs, Top(runs)), (t: Tier) => t.count < Asked(runs, target))
    ensures forall t :: t in Sort(Fewer(), low) ==> t.count >= Asked(runs, target)
    ensures forall t :: t in Sort(More(), high) ==> t.count < Asked(runs, target)
  {
    hide Count, Tiers, Only, Sort, Asked;
    OnlyExact(Tiers(runs, Top(runs)), (t: Tier) => t.count >= Asked(runs, target));
    OnlyExact(Tiers(runs, Top(runs)), (t: Tier) => t.count < Asked(runs, target));
    SortHolds(Fewer(), low);
    SortHolds(More(), high);
  }

  lemma {:induction false} SortedWithin(a: seq<Tier>, b: seq<Tier>, at: nat, i: nat, j: nat)
    requires i < j < |a + b| && SortedBy(Fewer(), a) && SortedBy(More(), b)
    requires (forall t :: t in a ==> t.count >= at) && (forall t :: t in b ==> t.count < at)
    ensures (a + b)[i].count >= at && (a + b)[j].count >= at ==> (a + b)[i].count <= (a + b)[j].count
    ensures (a + b)[i].count < at ==> (a + b)[j].count < at && (a + b)[i].count >= (a + b)[j].count
  {
    assert if i < |a| then (a + b)[i] == a[i] && a[i] in a else (a + b)[i] == b[i - |a|] && b[i - |a|] in b;
    assert if j < |a| then (a + b)[j] == a[j] && a[j] in a else (a + b)[j] == b[j - |a|] && b[j - |a|] in b;
    if j < |a| {
      assert Fewer()(a[i], a[j]);
    } else if i >= |a| {
      assert More()(b[i - |a|], b[j - |a|]);
    }
  }

  /** The days tier `t` leaves empty, for one that works. */
  ghost function QuietAt(w: Window, d: Draft, runs: seq<Run>, schedule: Schedule, t: Tier): nat
    requires ValidDraft(d) && Works(w, d, runs, schedule, t)
  {
    schedule(t.pace, t.count, FewestEmpty).value
  }

  /** Tier `n` is the one kept: no other at or under the request leaves fewer days empty, and none before it as few. */
  ghost predicate KeptAt(w: Window, d: Draft, runs: seq<Run>, order: seq<Tier>, at: nat, schedule: Schedule, n: nat)
    requires ValidDraft(d) && n < |order|
  {
    && Works(w, d, runs, schedule, order[n])
    && (forall m :: 0 <= m < n && Works(w, d, runs, schedule, order[m]) ==>
          order[n].count >= at && QuietAt(w, d, runs, schedule, order[m]) > QuietAt(w, d, runs, schedule, order[n]))
    && (forall m :: n < m < |order| && order[m].count >= at && Works(w, d, runs, schedule, order[m]) ==>
          QuietAt(w, d, runs, schedule, order[m]) >= QuietAt(w, d, runs, schedule, order[n]))
  }

  /** What the loop keeps of the tiers still to come, given what it has: a better one, or nothing new. */
  ghost predicate StaysLeast(w: Window, d: Draft, runs: seq<Run>, order: seq<Tier>, at: nat, schedule: Schedule, best: Option<Quietest>, r: Option<Quietest>)
    requires ValidDraft(d)
  {
    || (r == best && NothingBetter(w, d, runs, order, at, schedule, best))
    || (exists n :: 0 <= n < |order| && KeptAt(w, d, runs, order, at, schedule, n)
          && r == Some(Quietest(order[n].pace, QuietAt(w, d, runs, schedule, order[n])))
          && (best.Some? ==> order[n].count >= at && r.value.quiet < best.value.quiet))
  }

  ghost predicate NothingBetter(w: Window, d: Draft, runs: seq<Run>, order: seq<Tier>, at: nat, schedule: Schedule, best: Option<Quietest>)
    requires ValidDraft(d)
  {
    forall m :: 0 <= m < |order| && Works(w, d, runs, schedule, order[m]) ==>
      best.Some? && (order[m].count >= at ==> QuietAt(w, d, runs, schedule, order[m]) >= best.value.quiet)
  }

  lemma {:induction false} QuietestIsEarliest(w: Window, d: Draft, runs: seq<Run>, order: seq<Tier>, at: nat, schedule: Schedule, tries: nat, best: Option<Quietest>)
    requires ValidDraft(d) && (forall i :: 0 <= i < |order| ==> order[i].pace >= 1) && tries >= |order|
    requires forall i, j :: 0 <= i < j < |order| && order[j].count >= at ==> order[i].count >= at
    ensures StaysLeast(w, d, runs, order, at, schedule, best, FewestQuiet(w, d, runs, order, at, schedule, tries, best))
  {
    hide ValidDraft, ValidFlow, Crowded;
    if order != [] {
      var t := order[0];
      assert order == [t] + order[1..];
      if best.Some? && t.count < at {
        assert forall n :: 0 <= n < |order| ==> order[n].count < at;
      } else if Crowded(w, d, runs, t.pace) {
        QuietestIsEarliest(w, d, runs, order[1..], at, schedule, tries, best);
        EarliestSkips(w, d, runs, order, at, schedule, best, FewestQuiet(w, d, runs, order[1..], at, schedule, tries, best));
      } else {
        var quiet := schedule(t.pace, t.count, FewestEmpty);
        var better := if quiet.Some? && (best.None? || quiet.value < best.value.quiet) then Some(Quietest(t.pace, quiet.value)) else best;
        QuietestIsEarliest(w, d, runs, order[1..], at, schedule, tries - 1, better);
        var r := FewestQuiet(w, d, runs, order[1..], at, schedule, tries - 1, better);
        if quiet.None? {
          EarliestSkips(w, d, runs, order, at, schedule, best, r);
        } else if better == best {
          EarliestPasses(w, d, runs, order, at, schedule, best, r);
        } else {
          EarliestTakes(w, d, runs, order, at, schedule, best, r);
        }
      }
    }
  }

  /** A later tier of the rest, seen from the whole order. */
  lemma {:induction false} KeptLater(w: Window, d: Draft, runs: seq<Run>, order: seq<Tier>, at: nat, schedule: Schedule, n: nat)
    requires ValidDraft(d) && order != [] && n < |order[1..]| && KeptAt(w, d, runs, order[1..], at, schedule, n)
    requires Works(w, d, runs, schedule, order[0]) ==>
      order[n + 1].count >= at && QuietAt(w, d, runs, schedule, order[0]) > QuietAt(w, d, runs, schedule, order[1..][n])
    ensures KeptAt(w, d, runs, order, at, schedule, n + 1)
  {
    hide ValidDraft, Works;
    assert forall m :: 0 < m < |order| ==> order[m] == order[1..][m - 1];
  }

  /** A tier that does not work changes nothing. */
  lemma {:induction false} EarliestSkips(w: Window, d: Draft, runs: seq<Run>, order: seq<Tier>, at: nat, schedule: Schedule, best: Option<Quietest>, r: Option<Quietest>)
    requires ValidDraft(d) && order != [] && !Works(w, d, runs, schedule, order[0])
    requires StaysLeast(w, d, runs, order[1..], at, schedule, best, r)
    ensures StaysLeast(w, d, runs, order, at, schedule, best, r)
  {
    hide ValidDraft, Works, QuietAt;
    assert forall m :: 0 < m < |order| ==> order[m] == order[1..][m - 1];
    if !(r == best && NothingBetter(w, d, runs, order[1..], at, schedule, best)) {
      var n :| 0 <= n < |order[1..]| && KeptAt(w, d, runs, order[1..], at, schedule, n)
        && r == Some(Quietest(order[1..][n].pace, QuietAt(w, d, runs, schedule, order[1..][n])))
        && (best.Some? ==> order[1..][n].count >= at && r.value.quiet < best.value.quiet);
      KeptLater(w, d, runs, order, at, schedule, n);
      assert order[n + 1] == order[1..][n];
    }
  }

  /** Nor does one that leaves no fewer days empty. */
  lemma {:induction false} EarliestPasses(w: Window, d: Draft, runs: seq<Run>, order: seq<Tier>, at: nat, schedule: Schedule, best: Option<Quietest>, r: Option<Quietest>)
    requires ValidDraft(d) && order != [] && Works(w, d, runs, schedule, order[0]) && best.Some? && QuietAt(w, d, runs, schedule, order[0]) >= best.value.quiet
    requires StaysLeast(w, d, runs, order[1..], at, schedule, best, r)
    ensures StaysLeast(w, d, runs, order, at, schedule, best, r)
  {
    hide ValidDraft, Works, QuietAt;
    assert forall m :: 0 < m < |order| ==> order[m] == order[1..][m - 1];
    if !(r == best && NothingBetter(w, d, runs, order[1..], at, schedule, best)) {
      var n :| 0 <= n < |order[1..]| && KeptAt(w, d, runs, order[1..], at, schedule, n)
        && r == Some(Quietest(order[1..][n].pace, QuietAt(w, d, runs, schedule, order[1..][n])))
        && (best.Some? ==> order[1..][n].count >= at && r.value.quiet < best.value.quiet);
      KeptLater(w, d, runs, order, at, schedule, n);
      assert order[n + 1] == order[1..][n];
    }
  }

  /** One that leaves fewer is kept, unless a later one leaves fewer still. */
  lemma {:induction false} EarliestTakes(w: Window, d: Draft, runs: seq<Run>, order: seq<Tier>, at: nat, schedule: Schedule, best: Option<Quietest>, r: Option<Quietest>)
    requires ValidDraft(d) && order != [] && Works(w, d, runs, schedule, order[0]) && (best.Some? ==> order[0].count >= at)
    requires best.None? || QuietAt(w, d, runs, schedule, order[0]) < best.value.quiet
    requires StaysLeast(w, d, runs, order[1..], at, schedule, Some(Quietest(order[0].pace, QuietAt(w, d, runs, schedule, order[0]))), r)
    ensures StaysLeast(w, d, runs, order, at, schedule, best, r)
  {
    hide ValidDraft, Works, QuietAt;
    var better := Some(Quietest(order[0].pace, QuietAt(w, d, runs, schedule, order[0])));
    assert forall m :: 0 < m < |order| ==> order[m] == order[1..][m - 1];
    if r == better && NothingBetter(w, d, runs, order[1..], at, schedule, better) {
      assert KeptAt(w, d, runs, order, at, schedule, 0);
    } else {
      var n :| 0 <= n < |order[1..]| && KeptAt(w, d, runs, order[1..], at, schedule, n)
        && r == Some(Quietest(order[1..][n].pace, QuietAt(w, d, runs, schedule, order[1..][n])))
        && (better.Some? ==> order[1..][n].count >= at && r.value.quiet < better.value.quiet);
      KeptLater(w, d, runs, order, at, schedule, n);
      assert order[n + 1] == order[1..][n];
    }
  }

  /** Among paces the request allows, the faster is nearer; above it, the slower is. */
  lemma {:induction false} KeptIsNearest(w: Window, d: Draft, runs: seq<Run>, target: nat, schedule: Schedule, n: nat)
    requires ValidDraft(d) && target >= 1 && Top(runs) >= 1 && n < |Order(runs, target)|
    requires KeptAt(w, d, runs, Order(runs, target), Asked(runs, target), schedule, n)
    ensures var order := Order(runs, target); var r := order[n];
      && (r.pace <= target ==> forall t :: IsTier(runs, Top(runs), t) && t.pace <= target && Works(w, d, runs, schedule, t) ==>
            QuietAt(w, d, runs, schedule, r) <= QuietAt(w, d, runs, schedule, t)
            && (r.pace < t.pace ==> QuietAt(w, d, runs, schedule, r) < QuietAt(w, d, runs, schedule, t)))
      && (r.pace > target ==> forall t :: IsTier(runs, Top(runs), t) && t.pace < r.pace ==> !Works(w, d, runs, schedule, t))
  {
    hide ValidDraft, Works, QuietAt, Order, IsTier, Asked;
    OrderIsTiers(runs, target);
    OrderIsNearestFirst(runs, target);
    var order, at := Order(runs, target), Asked(runs, target);
    AtOrUnderRequest(runs, target, order[n]);
    forall t | IsTier(runs, Top(runs), t) && Works(w, d, runs, schedule, t)
      ensures order[n].pace <= target && t.pace <= target ==>
        QuietAt(w, d, runs, schedule, order[n]) <= QuietAt(w, d, runs, schedule, t)
        && (order[n].pace < t.pace ==> QuietAt(w, d, runs, schedule, order[n]) < QuietAt(w, d, runs, schedule, t))
      ensures order[n].pace > target ==> t.pace >= order[n].pace
    {
      assert t in order;
      var m :| 0 <= m < |order| && order[m] == t;
      AtOrUnderRequest(runs, target, t);
      if m < n {
        assert Nearer(order[m].pace, order[n].pace, target);
      } else if n < m {
        assert Nearer(order[n].pace, order[m].pace, target);
      }
    }
  }

  /** Pace `p` fills every day; pace `p` works with this many empty. */
  ghost predicate FillsAt(w: Window, d: Draft, runs: seq<Run>, schedule: Schedule, p: nat)
    requires ValidDraft(d) && |d.flows| >= 1
  {
    exists t :: IsTier(runs, Top(runs), t) && t.pace == p && Fills(w, d, runs, schedule, t)
  }

  ghost predicate WorksAt(w: Window, d: Draft, runs: seq<Run>, schedule: Schedule, p: nat, quiet: nat)
    requires ValidDraft(d)
  {
    exists t :: IsTier(runs, Top(runs), t) && t.pace == p && Works(w, d, runs, schedule, t) && QuietAt(w, d, runs, schedule, t) == quiet
  }

  /** Of the paces that fill: the highest at or under the request, or, when there is none, the lowest above it. */
  ghost predicate NearestFilling(w: Window, d: Draft, runs: seq<Run>, target: nat, schedule: Schedule, pace: nat)
    requires ValidDraft(d) && |d.flows| >= 1
  {
    && FillsAt(w, d, runs, schedule, pace)
    && (pace <= target ==> forall p: nat :: pace < p <= target ==> !FillsAt(w, d, runs, schedule, p))
    && (pace > target ==> forall p: nat :: p < pace ==> !FillsAt(w, d, runs, schedule, p))
  }

  /**
   * Of the paces that work: the highest of those at or under the request that leave the fewest days
   * empty, or, when none at or under it works, the lowest above it.
   */
  ghost predicate NearestWorking(w: Window, d: Draft, runs: seq<Run>, target: nat, schedule: Schedule, pace: nat, quiet: nat)
    requires ValidDraft(d)
  {
    && WorksAt(w, d, runs, schedule, pace, quiet)
    && (pace <= target ==> forall p: nat, q: nat :: p <= target && WorksAt(w, d, runs, schedule, p, q) ==> quiet <= q && (pace < p ==> quiet < q))
    && (pace > target ==> forall p: nat, q: nat :: p < pace ==> !WorksAt(w, d, runs, schedule, p, q))
  }

  /**
   * Which pace is chosen, in terms of paces alone: the nearest to the request that fills every day if
   * any does, otherwise the nearest of the quietest.
   */
  lemma {:induction false} ChoiceIsNearest(w: Window, d: Draft, runs: seq<Run>, target: nat, schedule: Schedule, maxTries: nat)
    requires ValidDraft(d) && |d.flows| >= 1 && ValidRuns(runs) && target >= 1 && Top(runs) >= 1 && maxTries >= |Order(runs, target)|
    requires PaceFor(w, d, runs, target, schedule, maxTries).Pace?
    ensures var r := PaceFor(w, d, runs, target, schedule, maxTries);
      if exists p: nat :: FillsAt(w, d, runs, schedule, p) then r.quiet == 0 && NearestFilling(w, d, runs, target, schedule, r.pace)
      else NearestWorking(w, d, runs, target, schedule, r.pace, r.quiet)
  {
    hide ValidDraft, ValidFlow, CannotStart, Crowded, Sparse, Order, IsTier, FirstFilling, FewestQuiet, Asked, Fills, Works, QuietAt, KeptAt, FillsAt, NearestFilling, NearestWorking, FirstToFill, NearestFirst;
    OrderIsTiers(runs, target);
    OrderIsNearestFirst(runs, target);
    var order, at := Order(runs, target), Asked(runs, target);
    TiersArePositive(runs, order);
    FillingIsFirst(w, d, runs, order, schedule, maxTries);
    var filling := FirstFilling(w, d, runs, order, schedule, maxTries);
    if filling.Some? {
      FilledIsNearest(w, d, runs, target, schedule, order, filling.value);
    } else {
      NoneFills(w, d, runs, schedule, order);
      QuietestIsEarliest(w, d, runs, order, at, schedule, maxTries, None);
      KeptIsChosen(w, d, runs, target, schedule, FewestQuiet(w, d, runs, order, at, schedule, maxTries, None));
    }
  }

  lemma {:induction false} KeptIsChosen(w: Window, d: Draft, runs: seq<Run>, target: nat, schedule: Schedule, best: Option<Quietest>)
    requires ValidDraft(d) && target >= 1 && Top(runs) >= 1 && best.Some?
    requires StaysLeast(w, d, runs, Order(runs, target), Asked(runs, target), schedule, None, best)
    ensures NearestWorking(w, d, runs, target, schedule, best.value.pace, best.value.quiet)
  {
    hide ValidDraft, Works, Order, IsTier, Asked;
    var order, at := Order(runs, target), Asked(runs, target);
    OrderIsTiers(runs, target);
    var n :| 0 <= n < |order| && KeptAt(w, d, runs, order, at, schedule, n)
      && best == Some(Quietest(order[n].pace, QuietAt(w, d, runs, schedule, order[n])));
    KeptIsNearest(w, d, runs, target, schedule, n);
    assert IsTier(runs, Top(runs), order[n]);
  }

  lemma {:induction false} NoneFills(w: Window, d: Draft, runs: seq<Run>, schedule: Schedule, order: seq<Tier>)
    requires ValidDraft(d) && |d.flows| >= 1 && (forall t :: t in order <==> IsTier(runs, Top(runs), t))
    requires forall t :: t in order ==> !Fills(w, d, runs, schedule, t)
    ensures forall p: nat :: !FillsAt(w, d, runs, schedule, p)
  {
    hide ValidDraft, IsTier, Fills;
  }

  lemma {:induction false} FilledIsNearest(w: Window, d: Draft, runs: seq<Run>, target: nat, schedule: Schedule, order: seq<Tier>, r: Tier)
    requires ValidDraft(d) && |d.flows| >= 1 && (forall t :: t in order <==> IsTier(runs, Top(runs), t))
    requires NearestFirst(order, target) && FirstToFill(w, d, runs, schedule, order, r)
    ensures FillsAt(w, d, runs, schedule, r.pace) && NearestFilling(w, d, runs, target, schedule, r.pace)
  {
    hide ValidDraft, IsTier, Fills, NearestFirst;
    var n :| 0 <= n < |order| && order[n] == r && Fills(w, d, runs, schedule, r) &&
      (forall m :: 0 <= m < n ==> !Fills(w, d, runs, schedule, order[m]));
    assert r in order;
    forall t | IsTier(runs, Top(runs), t) && Fills(w, d, runs, schedule, t)
      ensures !(r.pace < t.pace <= target) && (r.pace > target ==> t.pace >= r.pace)
    {
      assert t in order;
      var m :| 0 <= m < |order| && order[m] == t;
      if n < m {
        InOrder(order, target, n, m);
      }
    }
  }

  lemma {:induction false} InOrder(order: seq<Tier>, target: nat, n: nat, m: nat)
    requires NearestFirst(order, target) && n < m < |order|
    ensures Nearer(order[n].pace, order[m].pace, target)
  {
  }

  /**
   * With tries to spare a pace is found exactly when the outreach can start and some pace fills every
   * day or works at all; otherwise the reason given is the true one.
   */
  lemma {:induction false} FailsOnlyWithout(w: Window, d: Draft, runs: seq<Run>, target: nat, schedule: Schedule, maxTries: nat)
    requires ValidDraft(d) && |d.flows| >= 1 && ValidRuns(runs) && target >= 1 && Top(runs) >= 1 && maxTries >= |Order(runs, target)|
    ensures var r := PaceFor(w, d, runs, target, schedule, maxTries);
      var some := (exists p: nat :: FillsAt(w, d, runs, schedule, p)) || (exists p: nat, q: nat :: WorksAt(w, d, runs, schedule, p, q));
      && (r.Pace? <==> !CannotStart(w, d, runs) && some)
      && (r.NoPace? ==> r.why == if CannotStart(w, d, runs) then NoStart else if Crowded(w, d, runs, Top(runs)) then TooManyPeople else NotFound)
  {
    hide ValidDraft, ValidFlow, CannotStart, Crowded, Sparse, Order, IsTier, FirstFilling, FewestQuiet, Asked, Fills, Works, QuietAt, KeptAt, FillsAt, WorksAt, NearestFilling, NearestWorking, FirstToFill, NearestFirst;
    OrderIsTiers(runs, target);
    var order, at := Order(runs, target), Asked(runs, target);
    TiersArePositive(runs, order);
    FillingIsFirst(w, d, runs, order, schedule, maxTries);
    QuietestIsEarliest(w, d, runs, order, at, schedule, maxTries, None);
    var filling := FirstFilling(w, d, runs, order, schedule, maxTries);
    var r := PaceFor(w, d, runs, target, schedule, maxTries);
    if r.Pace? {
      ChoiceIsNearest(w, d, runs, target, schedule, maxTries);
      FoundMeans(w, d, runs, target, schedule, r.pace, r.quiet);
    } else if !CannotStart(w, d, runs) {
      NoneFills(w, d, runs, schedule, order);
      NoneWorks(w, d, runs, schedule, order, at);
    }
  }

  lemma {:induction false} FoundMeans(w: Window, d: Draft, runs: seq<Run>, target: nat, schedule: Schedule, pace: nat, quiet: nat)
    requires ValidDraft(d) && |d.flows| >= 1
    requires NearestFilling(w, d, runs, target, schedule, pace) || NearestWorking(w, d, runs, target, schedule, pace, quiet)
    ensures FillsAt(w, d, runs, schedule, pace) || WorksAt(w, d, runs, schedule, pace, quiet)
  {
    hide ValidDraft, FillsAt, WorksAt;
  }

  lemma {:induction false} NoneWorks(w: Window, d: Draft, runs: seq<Run>, schedule: Schedule, order: seq<Tier>, at: nat)
    requires ValidDraft(d) && (forall t :: t in order <==> IsTier(runs, Top(runs), t))
    requires StaysLeast(w, d, runs, order, at, schedule, None, None)
    ensures forall p: nat, q: nat :: !WorksAt(w, d, runs, schedule, p, q)
  {
    hide ValidDraft, IsTier, Works;
    forall t | t in order
      ensures !Works(w, d, runs, schedule, t)
    {
      var m :| 0 <= m < |order| && order[m] == t;
    }
  }
}
