/** Fitting paces and outreach to a window. */
module Fit {
  // fitCampaign of src/lib/campaign-fit.ts: what the fitter weighs for one FO, why the bounds its searches
  // rely on are real, and why no FO with contacts is left without an outreach.

  import opened Days
  import opened Sorting
  import opened Placement
  import opened Search
  import opened Fewest
  import opened Starts
  import opened Room
  import opened Queues
  import opened Calendar
  import opened Measure
  import opened Paces
  import opened StandIns
  import opened Certain
  import opened Edited
  import opened BranchBound

  // ---------------------------------------------------------------- the lowest pace an outreach could need

  /** The most batches an outreach of `f` could give a queue of `length`. */
  function MostBatches(w: Window, f: Flow, length: nat): int
    requires ValidFlow(f)
  {
    var room := (2 * |w.Days()| - 1) / |f|;
    var a := if |w.Days()| < StartCount(w, f) then |w.Days()| else StartCount(w, f);
    var b := if a < room then a else room;
    if b < length then b else length
  }

  /** floorPace: None stands for Infinity. */
  function FloorPace(w: Window, f: Flow, length: nat): Option<nat>
    requires ValidFlow(f)
  {
    if MostBatches(w, f, length) < 1 then None else Some(Ceil(length, MostBatches(w, f, length)))
  }

  function ExcessOf(pace: nat, target: nat): real
    requires target >= 1
  {
    (if pace > target then (pace - target) as real else 0.0) / (target as real)
  }

  /** An outreach's queue as the fitter weighs it: everyone on Default. */
  function ShapeDraft(w: Window, f: Flow): Draft {
    StandInDraft(w, f)
  }

  function ShapeRuns(length: nat): seq<Run> {
    [Run(DEFAULT, length)]
  }

  lemma {:induction false} ShapeCounts(w: Window, f: Flow, length: nat, pace: nat)
    requires ValidFlow(f) && pace >= 1
    ensures ValidDraft(ShapeDraft(w, f)) && Steps(ShapeDraft(w, f), DEFAULT) == f
    ensures Count(ShapeRuns(length), pace) == Ceil(length, pace)
    ensures RunTouches(ShapeDraft(w, f), ShapeRuns(length), pace) == Ceil(length, pace) * |f|
    ensures PerFlow(ShapeRuns(length), pace, DEFAULT) == Ceil(length, pace)
    ensures forall id :: id != DEFAULT ==> PerFlow(ShapeRuns(length), pace, id) == 0
  {
    hide ValidFlow, Ceil;
    StandInIsValid(w, f);
    var runs := ShapeRuns(length);
    assert runs[..0] == [];
  }

  /** On one outreach a pace is crowded exactly when it needs more batches than could fit. */
  lemma {:induction false} ShapeCrowded(w: Window, f: Flow, length: nat, pace: nat)
    requires ValidFlow(f) && pace >= 1 && length >= 1
    ensures ValidDraft(ShapeDraft(w, f))
    ensures Crowded(w, ShapeDraft(w, f), ShapeRuns(length), pace) <==> Ceil(length, pace) > MostBatches(w, f, length)
  {
    hide ValidFlow, WorkingDays, StartsOf, Ceil, Steps, ValidDraft;
    ShapeCounts(w, f, length, pace);
    var d, runs, n := ShapeDraft(w, f), ShapeRuns(length), Ceil(length, pace);
    FlowIsNonempty(f);
    CeilAtMost(length, pace);
    RoomForBatches(n, |f|, 2 * |w.Days()| - 1);
    if TooMany(w, d, runs, pace, DEFAULT) {
      assert Crowded(w, d, runs, pace);
    }
    forall id
      ensures TooMany(w, d, runs, pace, id) ==> id == DEFAULT
    {
    }
  }

  lemma {:induction false} FlowIsNonempty(f: Flow)
    requires ValidFlow(f)
    ensures |f| >= 1
  {
  }

  lemma {:induction false} CeilAtMost(length: nat, pace: nat)
    requires pace >= 1
    ensures Ceil(length, pace) <= length
  {
    if length >= 1 {
      DivAtMost(length - 1, pace);
    }
  }

  lemma {:induction false} DivAtMost(x: nat, pace: nat)
    requires pace >= 1
    ensures x / pace <= x
  {
    var q := x / pace;
    assert x == q * pace + x % pace;
    MulGrows(q, 1, pace);
  }

  /** n batches of s steps fit t touchpoints exactly when n is at most t / s. */
  lemma {:induction false} RoomForBatches(n: nat, s: nat, t: int)
    requires s >= 1
    ensures n * s > t <==> n > t / s
  {
    var q, r := t / s, t % s;
    assert t == q * s + r && 0 <= r < s;
    assert n * s - q * s == (n - q) * s;
    NoSmallMultiple(n - q, s);
    if n > q {
      MulGrowsInt(n - q, s);
    } else {
      MulGrowsInt(q - n, s);
      assert (q - n) * s == -((n - q) * s);
    }
  }

  lemma {:induction false} MulGrowsInt(e: int, s: nat)
    requires e >= 0
    ensures e * s >= 0 && (e >= 1 ==> e * s >= s)
  {
    if e >= 1 {
      assert (e - 1) * s >= 0;
    }
  }

  /** A pace that needs at most `most` batches is at least ceil(length / most). */
  lemma {:induction false} CeilIsGalois(length: nat, pace: nat, most: nat)
    requires pace >= 1 && most >= 1 && Ceil(length, pace) <= most
    ensures Ceil(length, most) <= pace
  {
    if length >= 1 {
      var x, q := length - 1, (length - 1) / pace;
      assert x == q * pace + x % pace;
      MulGrows(pace, q + 1, most);
      assert (q + 1) * pace == q * pace + pace;
      assert x < pace * most;
      DivBelow(x, most, pace);
    }
  }

  lemma {:induction false} DivBelow(x: nat, most: nat, pace: nat)
    requires most >= 1 && x < pace * most
    ensures x / most < pace
  {
    var q := x / most;
    assert x == q * most + x % most;
    if q >= pace {
      MulGrows(most, pace, q);
    }
  }

  /** No pace the fitter returns for an outreach is below the outreach's floor. */
  lemma {:induction false} PaceMeetsFloor(w: Window, f: Flow, length: nat, target: nat, schedule: Schedule, maxTries: nat)
    requires ValidFlow(f) && length >= 1 && target >= 1
    ensures ValidDraft(ShapeDraft(w, f)) && ValidRuns(ShapeRuns(length))
    ensures var r := PaceFor(w, ShapeDraft(w, f), ShapeRuns(length), target, schedule, maxTries);
      r.Pace? ==> FloorPace(w, f, length).Some? && FloorPace(w, f, length).value <= r.pace
  {
    hide ValidFlow, WorkingDays, StartsOf, Ceil, Steps, ValidDraft, PaceFor, Crowded, Works, Fills;
    StandInIsValid(w, f);
    var d, runs := ShapeDraft(w, f), ShapeRuns(length);
    AtLeastOneFlow(d);
    TopIsPositive(runs);
    ChoiceIsRight(w, d, runs, target, schedule, maxTries);
    var r := PaceFor(w, d, runs, target, schedule, maxTries);
    if r.Pace? {
      var t :| Chosen(w, d, runs, schedule, r, t);
      ShapeCrowded(w, f, length, r.pace);
      CeilPositive(length, r.pace);
      CeilIsGalois(length, r.pace, MostBatches(w, f, length));
    }
  }

  lemma {:induction false} CeilPositive(length: nat, pace: nat)
    requires length >= 1 && pace >= 1
    ensures Ceil(length, pace) >= 1
  {
  }

  // ---------------------------------------------------------------- weighing outreaches for one FO

  datatype Choice = Choice(flow: Flow, q: real)

  /** Batch counts tried per outreach the studio is weighing. */
  const SHAPE_TRIES: nat := 8

  /** one: what an outreach gives an FO, with the planner asked through `schedule`. */
  ghost function One(w: Window, c: Choice, length: nat, target: nat, schedule: Schedule): Option<Eval>
    requires ValidFlow(c.flow) && length >= 1 && target >= 1
  {
    StandInIsValid(w, c.flow);
    var r := PaceFor(w, ShapeDraft(w, c.flow), ShapeRuns(length), target, schedule, SHAPE_TRIES);
    if r.Pace? then Some(Eval(r.pace, ExcessOf(r.pace, target), r.quiet)) else None
  }

  /** floorExcess: None stands for Infinity. */
  function FloorExcess(w: Window, f: Flow, length: nat, target: nat): Option<real>
    requires ValidFlow(f) && target >= 1
  {
    match FloorPace(w, f, length)
    case None => None
    case Some(p) => Some(ExcessOf(p, target))
  }

  ghost predicate ValidChoices(choices: seq<Choice>) {
    forall i :: 0 <= i < |choices| ==> ValidFlow(choices[i].flow)
  }

  /** The table one FO's outreaches are weighed in. */
  ghost function TableFor(w: Window, choices: seq<Choice>, length: nat, target: nat, schedules: nat -> Schedule): Table
    requires ValidChoices(choices) && length >= 1 && target >= 1
  {
    Table(|w.Days()|,
      seq(|choices|, i requires 0 <= i < |choices| => choices[i].q),
      seq(|choices|, i requires 0 <= i < |choices| => FloorExcess(w, choices[i].flow, length, target)),
      seq(|choices|, i requires 0 <= i < |choices| => One(w, choices[i], length, target, schedules(i))))
  }

  lemma {:induction false} ExcessGrows(a: nat, b: nat, target: nat)
    requires target >= 1 && a <= b
    ensures 0.0 <= ExcessOf(a, target) <= ExcessOf(b, target)
  {
    DivNonNegative(if a > target then (a - target) as real else 0.0, target as real);
    var x, y := (if a > target then (a - target) as real else 0.0), (if b > target then (b - target) as real else 0.0);
    DivNonNegative(y - x, target as real);
    assert y / (target as real) - x / (target as real) == (y - x) / (target as real);
  }

  /** The search's bounds are real: the table the fitter builds satisfies what `alone` and `star` rely on. */
  lemma {:induction false} TableIsValid(w: Window, choices: seq<Choice>, length: nat, target: nat, schedules: nat -> Schedule)
    requires ValidChoices(choices) && length >= 1 && target >= 1 && |w.Days()| >= 1
    ensures ValidTable(TableFor(w, choices, length, target, schedules))
  {
    hide ValidFlow, WorkingDays, ExcessOf, FloorPace, PaceFor, ValidDraft;
    forall i | 0 <= i < |choices|
      ensures var t := TableFor(w, choices, length, target, schedules);
        && (t.floor[i].Some? ==> t.floor[i].value >= 0.0)
        && (t.one[i].Some? ==> t.floor[i].Some? && t.floor[i].value <= t.one[i].value.excess)
    {
      var f := choices[i].flow;
      PaceMeetsFloor(w, f, length, target, schedules(i), SHAPE_TRIES);
      var p := FloorPace(w, f, length);
      if p.Some? {
        ExcessGrows(p.value, p.value, target);
        var r := PaceFor(w, ShapeDraft(w, f), ShapeRuns(length), target, schedules(i), SHAPE_TRIES);
        if r.Pace? {
          ExcessGrows(p.value, r.pace, target);
        }
      }
    }
  }

  // ---------------------------------------------------------------- one step always works

  const ONE_STEP: Flow := [1]

  /** An outreach of one step can start on every working day. */
  lemma {:induction false} OneStepStarts(w: Window)
    ensures ValidFlow(ONE_STEP) && StartCount(w, ONE_STEP) == |w.Days()|
    ensures forall x :: 0 <= x < |w.Days()| ==> StartsOf(w, ONE_STEP)[x] == Start(x, [w.Days()[x]])
  {
    hide WorkingDays;
    WorkingDaysExact(w.start, w.end);
    forall i | 0 <= i < |w.Days()|
      ensures Fits(w, ONE_STEP, i)
    {
      assert w.Days()[i] in w.Days();
    }
    CountIsPrefix(w, ONE_STEP, |w.Days()|, |w.Days()|);
    forall x | 0 <= x < |w.Days()|
      ensures StartsOf(w, ONE_STEP)[x] == Start(x, [w.Days()[x]])
    {
      StartsArePrefix(w, ONE_STEP, x);
      assert Journey(w.Days()[x], ONE_STEP) == [w.Days()[x]];
    }
  }

  lemma {:induction false} OneStepBoard(w: Window, count: nat)
    requires 1 <= count <= |w.Days()|
    ensures ValidFlows(Same(ONE_STEP, count)) && !Startless(w, Same(ONE_STEP, count))
    ensures ValidBoard(BoardOf(w, Same(ONE_STEP, count)))
    ensures forall i :: 0 <= i < count ==> BoardOf(w, Same(ONE_STEP, count)).options[i] == StartsOf(w, ONE_STEP)
  {
    hide ValidFlow, StartsOf, WorkingDays;
    OneStepStarts(w);
    BoardIsValid(w, Same(ONE_STEP, count));
  }

  lemma {:induction false} OneStepLatest(w: Window, count: nat, i: nat)
    requires i < count <= |w.Days()|
    ensures ValidBoard(BoardOf(w, Same(ONE_STEP, count)))
    ensures Latest(BoardOf(w, Same(ONE_STEP, count)), i) == |w.Days()| - count + i
    decreases count - i
  {
    hide ValidBoard, ValidFlow, StartsOf, WorkingDays;
    OneStepBoard(w, count);
    OneStepStarts(w);
    if i < count - 1 {
      OneStepLatest(w, count, i + 1);
    }
  }

  /** No day after position `after` is in use. */
  ghost predicate FreeAfter(b: Board, slots: Slots, after: int)
    requires OnBoard(b, slots)
  {
    forall x :: after < x < |b.days| && 0 <= x ==> slots[b.days[x]] == []
  }

  /** The working day after the last start is always open to the next batch. */
  lemma {:induction false} NextDayIsEligible(w: Window, count: nat, i: nat, after: int, slots: Slots)
    requires i < count <= |w.Days()| && ValidBoard(BoardOf(w, Same(ONE_STEP, count)))
    requires OnBoard(BoardOf(w, Same(ONE_STEP, count)), slots)
    requires -1 <= after < |w.Days()| - count + i && FreeAfter(BoardOf(w, Same(ONE_STEP, count)), slots, after)
    ensures var b := BoardOf(w, Same(ONE_STEP, count));
      after + 1 < |b.options[i]| && Eligible(b, i, after, slots, b.options[i][after + 1])
  {
    hide ValidBoard, ValidFlow, StartsOf, WorkingDays;
    OneStepBoard(w, count);
    OneStepStarts(w);
    OneStepLatest(w, count, i);
  }

  lemma {:induction false} EligibleIsEarly(b: Board, i: nat, after: int, slots: Slots, o: Start)
    requires ValidBoard(b) && OnBoard(b, slots) && i < |b.options| && Eligible(b, i, after, slots, o)
    ensures o.index <= Latest(b, i)
  {
    hide ValidBoard, Open, Latest;
  }

  lemma {:induction false} OneStepPick(w: Window, count: nat, o: Start, i: nat)
    requires i < count <= |w.Days()| && ValidFlows(Same(ONE_STEP, count))
    requires o in BoardOf(w, Same(ONE_STEP, count)).options[i]
    ensures o.index < |w.Days()| && o.dates == [w.Days()[o.index]]
  {
    hide ValidFlow, StartsOf, WorkingDays;
    OneStepBoard(w, count);
    OneStepStarts(w);
    var x :| 0 <= x < |StartsOf(w, ONE_STEP)| && StartsOf(w, ONE_STEP)[x] == o;
  }

  /** With one step a batch, the greedy pass never fails. */
  lemma {:induction false} OneStepGreedy(w: Window, count: nat, i: nat, after: int, t: Trail)
    requires i <= count && 1 <= count <= |w.Days()|
    requires ValidBoard(BoardOf(w, Same(ONE_STEP, count))) && ValidTrail(BoardOf(w, Same(ONE_STEP, count)), t)
    requires -1 <= after < |w.Days()| && FreeAfter(BoardOf(w, Same(ONE_STEP, count)), t.slots, after)
    requires i < count ==> after < |w.Days()| - count + i
    ensures Greedy(BoardOf(w, Same(ONE_STEP, count)), i, after, t).0
    decreases count - i
  {
    hide ValidBoard, ValidFlow, ValidStart, Ascending, Open, StartsOf, WorkingDays, Choose, Cost, Put, Eligible, FreeAfter, Touch;
    OneStepBoard(w, count);
    var b := BoardOf(w, Same(ONE_STEP, count));
    if i < count {
      BoardFacts(b);
      NextDayIsEligible(w, count, i, after, t.slots);
      ChooseIsCheapest(b, i, after, t.slots, t.count);
      var (pick, steps) := Choose(b, i, after, t.slots, t.count);
      assert pick.Some?;
      var o := pick.value.start;
      EligibleStart(b, i, after, t.slots, o);
      EligibleIsEarly(b, i, after, t.slots, o);
      OneStepPick(w, count, o, i);
      OneStepLatest(w, count, i);
      StillFree(b, t.slots, after, o);
      OneStepGreedy(w, count, i + 1, o.index, Forth(t.(count := steps), i, o));
    }
  }

  lemma {:induction false} StillFree(b: Board, slots: Slots, after: int, o: Start)
    requires OnBoard(b, slots) && Ascending(b.days) && FreeAfter(b, slots, after)
    requires after < o.index < |b.days| && o.dates == [b.days[o.index]]
    ensures FreeAfter(b, Put(slots, o.dates), o.index)
  {
    hide Put;
    forall x | o.index < x < |b.days|
      ensures Put(slots, o.dates)[b.days[x]] == []
    {
      PutAt(slots, o.dates, b.days[x]);
    }
  }

  /** Up to one batch a day of a one-step outreach can always be planned. */
  lemma {:induction false} OneStepSchedules(w: Window, count: nat, limit: nat)
    requires 1 <= count <= |w.Days()|
    ensures ValidFlow(ONE_STEP) && AskPlanner(w, ONE_STEP, count, limit, FewestEmpty).Some?
  {
    hide ValidBoard, ValidFlow, StartsOf, WorkingDays, Greedy, FindFewest, AskPlanner, Idle, Halve, UpTo;
    OneStepStarts(w);
    var flows := Same(ONE_STEP, count);
    OneStepBoard(w, count);
    StandInsAskTheSearch(w, ONE_STEP, count, limit, FewestEmpty);
    var b := BoardOf(w, flows);
    OneStepGreedy(w, count, 0, -1, Start0(b, 0));
    GreedyMeansPlan(b, limit);
    OneStepTouches(count);
  }

  lemma {:induction false} GreedyMeansPlan(b: Board, limit: nat)
    requires ValidBoard(b) && Greedy(b, 0, -1, Start0(b, 0)).0
    ensures FindFewest(b, limit).best.Some?
  {
    hide ValidBoard, Greedy, Halve, UpTo;
  }

  lemma {:induction false} OneStepTouches(count: nat)
    ensures Touches(Same(ONE_STEP, count)) == count
  {
    if count > 0 {
      OneStepTouches(count - 1);
      assert Same(ONE_STEP, count)[..count - 1] == Same(ONE_STEP, count - 1);
    }
  }

  // ---------------------------------------------------------------- nobody with contacts is left off

  /** The fewest-empty loop finds something as soon as every uncrowded tier works and one exists. */
  lemma {:induction false} SomethingWorks(w: Window, d: Draft, runs: seq<Run>, order: seq<Tier>, at: nat, schedule: Schedule, tries: nat, best: Option<Quietest>)
    requires ValidDraft(d) && tries >= 1 && forall i :: 0 <= i < |order| ==> order[i].pace >= 1
    requires forall t :: t in order && t.pace >= 1 && !Crowded(w, d, runs, t.pace) ==> schedule(t.pace, t.count, FewestEmpty).Some?
    requires best.Some? || exists t :: t in order && t.pace >= 1 && !Crowded(w, d, runs, t.pace)
    ensures FewestQuiet(w, d, runs, order, at, schedule, tries, best).Some?
  {
    hide ValidDraft, Crowded;
    if order != [] && best.None? {
      var t := order[0];
      assert order == [t] + order[1..];
      if Crowded(w, d, runs, t.pace) {
        SomethingWorks(w, d, runs, order[1..], at, schedule, tries, best);
      } else {
        var quiet := schedule(t.pace, t.count, FewestEmpty);
        assert t in order;
        KeepsBest(w, d, runs, order[1..], at, schedule, tries - 1, Some(Quietest(t.pace, quiet.value)));
      }
    } else if best.Some? {
      KeepsBest(w, d, runs, order, at, schedule, tries, best);
    }
  }

  lemma {:induction false} KeepsBest(w: Window, d: Draft, runs: seq<Run>, order: seq<Tier>, at: nat, schedule: Schedule, tries: nat, best: Option<Quietest>)
    requires ValidDraft(d) && best.Some? && forall i :: 0 <= i < |order| ==> order[i].pace >= 1
    ensures FewestQuiet(w, d, runs, order, at, schedule, tries, best).Some?
    decreases |order|
  {
    hide ValidDraft, Crowded;
    if order != [] {
      var t := order[0];
      if t.count >= at {
        if Crowded(w, d, runs, t.pace) {
          KeepsBest(w, d, runs, order[1..], at, schedule, tries, best);
        } else if tries > 0 {
          var quiet := schedule(t.pace, t.count, FewestEmpty);
          KeepsBest(w, d, runs, order[1..], at, schedule, tries - 1,
            if quiet.Some? && quiet.value < best.value.quiet then Some(Quietest(t.pace, quiet.value)) else best);
        }
      }
    }
  }

  /** Within 500 people a working day, the one-step outreach always gives an FO a pace. */
  lemma {:induction false} OneStepServes(w: Window, length: nat, target: nat, schedule: Schedule, q: real)
    requires 1 <= length <= MAX_PACE * |w.Days()| && target >= 1
    requires ValidFlow(ONE_STEP) && FromStandIns(w, ONE_STEP, schedule)
    ensures One(w, Choice(ONE_STEP, q), length, target, schedule).Some?
  {
    hide ValidFlow, StartsOf, WorkingDays, ValidDraft, Crowded, FirstFilling, FewestQuiet, AskPlanner, Order, Tiers, Count, Steps, Asked;
    StandInIsValid(w, ONE_STEP);
    var d, runs := ShapeDraft(w, ONE_STEP), ShapeRuns(length);
    AtLeastOneFlow(d);
    TopIsPositive(runs);
    OrderIsTiers(runs, target);
    OneStepStarts(w);
    ShapeCounts(w, ONE_STEP, length, 1);
    var order, top := Order(runs, target), Top(runs);
    ShapeTop(length);
    TopFits(length, |w.Days()|, top);
    TopTier(runs, top);
    var best := Tiers(runs, top);
    forall t | t in order && !Crowded(w, d, runs, t.pace)
      ensures schedule(t.pace, t.count, FewestEmpty).Some?
    {
      ShapeCounts(w, ONE_STEP, length, t.pace);
      ShapeCrowded(w, ONE_STEP, length, t.pace);
      CeilPositive(length, t.pace);
      OneStepSchedules(w, t.count, FEWEST_LIMIT);
    }
    var t :| IsTier(runs, top, t) && t.count == Count(runs, top);
    ShapeCounts(w, ONE_STEP, length, t.pace);
    ShapeCounts(w, ONE_STEP, length, top);
    ShapeCrowded(w, ONE_STEP, length, t.pace);
    CeilAtMost(length, t.pace);
    assert t in order;
    SomethingWorks(w, d, runs, order, Asked(runs, target), schedule, SHAPE_TRIES, None);
  }

  lemma {:induction false} ShapeTop(length: nat)
    requires length >= 1
    ensures Top(ShapeRuns(length)) == if length < MAX_PACE then length else MAX_PACE
  {
    assert Longest(ShapeRuns(length)[..0]) == 0;
  }

  /** At the top pace one batch a working day is enough for up to 500 people a day. */
  lemma {:induction false} TopFits(length: nat, days: nat, top: nat)
    requires 1 <= length <= MAX_PACE * days && top == if length < MAX_PACE then length else MAX_PACE
    ensures Ceil(length, top) <= days
  {
    if length < MAX_PACE {
      DivBelow(length - 1, length, 1);
      assert days >= 1;
    } else {
      DivBelow(length - 1, MAX_PACE, days);
      assert (length - 1) / MAX_PACE < days;
    }
  }

  /** The top pace's count has a tier. */
  lemma {:induction false} TopTier(runs: seq<Run>, top: nat)
    requires top >= 1
    ensures exists t :: IsTier(runs, top, t) && t.count == Count(runs, top)
  {
    hide Count;
    TiersExact(runs, top);
    var tiers := Tiers(runs, top);
    var i :| 0 <= i < |tiers| && tiers[i].count == Count(runs, top);
    assert tiers[i] in tiers;
  }

  // ---------------------------------------------------------------- the outreaches the studio weighs

  /** Gaps tried between steps, best first, and the breathing-room penalty of each. */
  const GAPS: seq<nat> := [4, 3, 2, 5, 7, 1]

  function GapPenalty(gap: nat): real {
    match gap
    case 4 => 0.0
    case 3 => 0.1
    case 5 => 0.2
    case 2 => 0.3
    case 7 => 0.4
    case _ => 1.0
  }

  function StepPenalty(s: nat): real
    requires s >= 1
  {
    if s <= 8 then 8.0 / (s as real) else 1.0 + ((s as real) - 8.0) / 4.0
  }

  /** outreachRecipe, as step days. */
  function Recipe(s: nat, gap: nat): Flow {
    seq(s, i requires 0 <= i < s => 1 + i * gap)
  }

  lemma {:induction false} RecipeIsValid(s: nat, gap: nat)
    requires s >= 1 && gap >= 1
    ensures ValidFlow(Recipe(s, gap))
    ensures s == 1 ==> Recipe(s, gap) == ONE_STEP
  {
    var f := Recipe(s, gap);
    forall i, j | 0 <= i < j < s
      ensures f[i] < f[j]
    {
      MulGrowsInt(j - i, gap);
      assert j * gap - i * gap == (j - i) * gap;
    }
  }

  predicate Listed(choices: seq<Choice>, f: Flow) {
    exists i :: 0 <= i < |choices| && choices[i].flow == f
  }

  /** What `s` steps, `gap` days apart, are worth before any empty days: reach, and room to breathe. */
  function Quality(s: nat, gap: nat): real
    requires s >= 1
  {
    StepPenalty(s) + (if s > 1 then GapPenalty(gap) else 0.0)
  }

  /** This choice is `s` steps a `gap` apart, at their quality. */
  ghost predicate IsRecipe(c: Choice, s: nat, gap: nat) {
    s >= 1 && gap in GAPS && c == Choice(Recipe(s, gap), Quality(s, gap))
  }

  /** A recipe fits the window: its last step within the span, and a day to start on. */
  predicate FitsWindow(w: Window, s: nat, gap: nat) {
    && 1 <= s <= 60 && s <= |w.Days()| && gap in GAPS && gap >= 1 && (s - 1) * gap <= w.end - w.start
    && (RecipeIsValid(s, gap); StartCount(w, Recipe(s, gap)) >= 1)
  }

  /** The choices so far: each a recipe that fits, no shape twice. */
  ghost predicate Weighed(w: Window, choices: seq<Choice>) {
    && (forall i :: 0 <= i < |choices| ==> exists s, gap :: IsRecipe(choices[i], s, gap) && FitsWindow(w, s, gap))
    && NoShapeTwice(choices)
  }

  predicate NoShapeTwice(choices: seq<Choice>) {
    forall i, j :: 0 <= i < j < |choices| ==> choices[i].flow != choices[j].flow
  }

  /** Best quality first, and fewer steps at the same quality. */
  function BestFirst(): (Choice, Choice) -> bool {
    (a: Choice, b: Choice) => a.q < b.q || (a.q == b.q && |a.flow| <= |b.flow|)
  }

  /** The recipes of `t` steps with the first `n` gaps are all listed, as are all of fewer steps. */
  ghost predicate ListedUpTo(w: Window, choices: seq<Choice>, t: nat, n: nat)
    requires n <= |GAPS|
  {
    && (forall s, g :: 1 <= s < t && 0 <= g < |GAPS| && FitsWindow(w, s, GAPS[g]) ==> Listed(choices, Recipe(s, GAPS[g])))
    && forall g :: 0 <= g < n && FitsWindow(w, t, GAPS[g]) ==> Listed(choices, Recipe(t, GAPS[g]))
  }

  /**
   * The choices: every recipe of at most 60 steps, and no more steps than working days, that fits
   * the window, each shape once, best quality first.
   */
  method WeighedChoices(w: Window) returns (choices: seq<Choice>)
    requires |w.Days()| >= 1
    ensures Weighed(w, choices) && ValidChoices(choices) && SortedBy(BestFirst(), choices)
    ensures forall s, g :: 1 <= s && 0 <= g < |GAPS| && FitsWindow(w, s, GAPS[g]) ==> Listed(choices, Recipe(s, GAPS[g]))
    ensures Listed(choices, ONE_STEP)
  {
    hide WorkingDays, StartsOf, ValidFlow, Weighed, ListedUpTo, Listed, FitsWindow, Sort;
    var days := CalendarDays(w.start, w.end);
    var top := if |days| < 60 then |days| else 60;
    choices := [];
    NothingWeighed(w);
    var s := 1;
    while s <= top
      invariant 1 <= s <= top + 1
      invariant Weighed(w, choices) && ListedUpTo(w, choices, s, 0)
      decreases top + 1 - s
    {
      var g := 0;
      while g < |GAPS|
        invariant 0 <= g <= |GAPS|
        invariant Weighed(w, choices) && ListedUpTo(w, choices, s, g)
      {
        var gap := GAPS[g];
        assert gap >= 1;
        RecipeIsValid(s, gap);
        var flow := Recipe(s, gap);
        var starts := StartsFor(w, flow);
        var fits := (s - 1) * gap <= w.end - w.start && starts >= 1;
        assert fits == FitsWindow(w, s, gap) by { FitsMeans(w, s, gap, starts); }
        ghost var before := choices;
        if fits && !Listed(choices, flow) {
          choices := choices + [Choice(flow, Quality(s, gap))];
        }
        OneMoreWeighed(w, before, s, g);
        g := g + 1;
      }
      NextSteps(w, choices, s);
      s := s + 1;
    }
    AllListed(w, choices, s);
    OneStepFits(w);
    ghost var found := choices;
    choices := Sort(BestFirst(), choices);
    SortedWeighed(w, found);
  }

  lemma {:induction false} FitsMeans(w: Window, s: nat, gap: nat, starts: nat)
    requires 1 <= s <= 60 && s <= |w.Days()| && gap in GAPS && gap >= 1
    requires ValidFlow(Recipe(s, gap)) && starts == StartCount(w, Recipe(s, gap))
    ensures FitsWindow(w, s, gap) <==> (s - 1) * gap <= w.end - w.start && starts >= 1
  {
    hide WorkingDays, StartsOf, ValidFlow;
  }

  lemma {:induction false} NothingWeighed(w: Window)
    ensures Weighed(w, []) && ListedUpTo(w, [], 1, 0)
  {
    hide FitsWindow;
  }

  /** One turn of the inner loop. */
  lemma {:induction false} OneMoreWeighed(w: Window, before: seq<Choice>, s: nat, g: nat)
    requires s >= 1 && g < |GAPS| && Weighed(w, before) && ListedUpTo(w, before, s, g)
    ensures var after := if FitsWindow(w, s, GAPS[g]) && !Listed(before, Recipe(s, GAPS[g]))
      then before + [Choice(Recipe(s, GAPS[g]), Quality(s, GAPS[g]))] else before;
      Weighed(w, after) && ListedUpTo(w, after, s, g + 1)
  {
    hide FitsWindow, Recipe, Quality;
    var gap := GAPS[g];
    if FitsWindow(w, s, gap) && !Listed(before, Recipe(s, gap)) {
      var after := before + [Choice(Recipe(s, gap), Quality(s, gap))];
      StillListed(before, after);
      assert IsRecipe(after[|before|], s, gap);
      assert Listed(after, Recipe(s, gap)) by { assert after[|before|].flow == Recipe(s, gap); }
    }
  }

  lemma {:induction false} NextSteps(w: Window, choices: seq<Choice>, s: nat)
    requires s >= 1 && ListedUpTo(w, choices, s, |GAPS|)
    ensures ListedUpTo(w, choices, s + 1, 0)
  {
    hide FitsWindow, Listed;
  }

  /** Past the last number of steps nothing fits. */
  lemma {:induction false} AllListed(w: Window, choices: seq<Choice>, t: nat)
    requires t > (if |w.Days()| < 60 then |w.Days()| else 60) && ListedUpTo(w, choices, t, 0)
    ensures forall s, g :: 1 <= s && 0 <= g < |GAPS| && FitsWindow(w, s, GAPS[g]) ==> Listed(choices, Recipe(s, GAPS[g]))
  {
    hide WorkingDays, Listed, StartCount;
  }

  /** One step fits every window with a working day. */
  lemma {:induction false} OneStepFits(w: Window)
    requires |w.Days()| >= 1
    ensures FitsWindow(w, 1, GAPS[0]) && Recipe(1, GAPS[0]) == ONE_STEP
  {
    hide WorkingDays, StartsOf, ValidFlow;
    RecipeIsValid(1, GAPS[0]);
    OneStepStarts(w);
    WindowHasSpan(w);
  }

  /** Sorting changes none of it. */
  lemma {:induction false} SortedWeighed(w: Window, choices: seq<Choice>)
    requires Weighed(w, choices)
    ensures var sorted := Sort(BestFirst(), choices);
      && Weighed(w, sorted) && ValidChoices(sorted) && SortedBy(BestFirst(), sorted)
      && forall f :: Listed(choices, f) ==> Listed(sorted, f)
  {
    hide FitsWindow, Sort, Recipe, Quality;
    var sorted := Sort(BestFirst(), choices);
    SortKeeps(BestFirst(), choices);
    SortSorts(BestFirst(), choices);
    SortKeepsDistinct(choices);
    forall i | 0 <= i < |sorted|
      ensures exists s, gap :: IsRecipe(sorted[i], s, gap) && FitsWindow(w, s, gap)
      ensures ValidFlow(sorted[i].flow)
    {
      assert sorted[i] in multiset(choices);
      var j :| 0 <= j < |choices| && choices[j] == sorted[i];
      var s, gap :| IsRecipe(choices[j], s, gap) && FitsWindow(w, s, gap);
      FittingIsValid(w, s, gap);
    }
    forall f | Listed(choices, f)
      ensures Listed(sorted, f)
    {
      var i :| 0 <= i < |choices| && choices[i].flow == f;
      assert choices[i] in multiset(sorted);
      var j :| 0 <= j < |sorted| && sorted[j] == choices[i];
    }
  }

  lemma {:induction false} FittingIsValid(w: Window, s: nat, gap: nat)
    requires FitsWindow(w, s, gap)
    ensures ValidFlow(Recipe(s, gap))
  {
    RecipeIsValid(s, gap);
  }

  /** A list without two choices of one shape has none when sorted. */
  lemma {:induction false} SortKeepsDistinct(choices: seq<Choice>)
    requires NoShapeTwice(choices)
    ensures NoShapeTwice(Sort(BestFirst(), choices))
  {
    hide BestFirst, Insert;
    if choices != [] {
      var n := |choices| - 1;
      assert NoShapeTwice(choices[..n]) && forall i :: 0 <= i < n ==> choices[..n][i].flow != choices[n].flow;
      SortKeepsDistinct(choices[..n]);
      SortKeeps(BestFirst(), choices[..n]);
      var rest := Sort(BestFirst(), choices[..n]);
      SameShapes(choices[..n], rest, choices[n]);
      InsertKeepsDistinct(choices[n], rest);
      assert Sort(BestFirst(), choices) == Insert(BestFirst(), choices[n], rest);
    }
  }

  lemma {:induction false} SameShapes(a: seq<Choice>, b: seq<Choice>, c: Choice)
    requires multiset(a) == multiset(b) && forall i :: 0 <= i < |a| ==> a[i].flow != c.flow
    ensures forall i :: 0 <= i < |b| ==> b[i].flow != c.flow
  {
    forall i | 0 <= i < |b|
      ensures b[i].flow != c.flow
    {
      assert b[i] in multiset(a);
      var j :| 0 <= j < |a| && a[j] == b[i];
    }
  }

  lemma {:induction false} InsertKeepsDistinct(c: Choice, s: seq<Choice>)
    requires NoShapeTwice(s) && forall i :: 0 <= i < |s| ==> s[i].flow != c.flow
    ensures NoShapeTwice(Insert(BestFirst(), c, s))
  {
    hide BestFirst;
    if s == [] {
    } else if BestFirst()(s[|s| - 1], c) {
      AppendDistinct(s, c);
    } else {
      var n := |s| - 1;
      FrontDistinct(s, c);
      InsertKeepsDistinct(c, s[..n]);
      InsertKeeps(BestFirst(), c, s[..n]);
      var front := Insert(BestFirst(), c, s[..n]);
      SameShapes(s[..n] + [c], front, s[n]);
      AppendDistinct(front, s[n]);
    }
  }

  lemma {:induction false} AppendDistinct(s: seq<Choice>, x: Choice)
    requires NoShapeTwice(s) && forall i :: 0 <= i < |s| ==> s[i].flow != x.flow
    ensures NoShapeTwice(s + [x])
  {
  }

  lemma {:induction false} FrontDistinct(s: seq<Choice>, c: Choice)
    requires s != [] && NoShapeTwice(s) && forall i :: 0 <= i < |s| ==> s[i].flow != c.flow
    ensures var n := |s| - 1; var front := s[..n];
      && NoShapeTwice(front)
      && (forall i :: 0 <= i < n ==> front[i].flow != c.flow)
      && forall i :: 0 <= i <= n ==> (front + [c])[i].flow != s[n].flow
  {
  }

  lemma {:induction false} StillListed(before: seq<Choice>, after: seq<Choice>)
    requires before <= after
    ensures forall f :: Listed(before, f) ==> Listed(after, f)
  {
    forall f | Listed(before, f)
      ensures Listed(after, f)
    {
      var i :| 0 <= i < |before| && before[i].flow == f;
      assert after[i].flow == f;
    }
  }

  lemma {:induction false} WindowHasSpan(w: Window)
    requires |w.Days()| >= 1
    ensures w.start <= w.end
  {
  }

  /**
   * No FO with contacts is left off when the studio builds the outreach: with a queue within 500 a
   * working day, `alone` always finds something, budget or no budget, because the one-step outreach
   * is among the choices and can always be scheduled. The recursion for unserved FOs is never taken.
   */
  method ServeAlone(w: Window, choices: seq<Choice>, length: nat, target: nat, ghost schedules: nat -> Schedule, t: Table, spent: nat -> bool) returns (best: Option<Best>, cut: bool)
    requires |w.Days()| >= 1 && ValidChoices(choices) && Listed(choices, ONE_STEP)
    requires 1 <= length <= MAX_PACE * |w.Days()| && target >= 1
    requires forall i :: 0 <= i < |choices| ==> FromStandIns(w, choices[i].flow, schedules(i))
    requires t == TableFor(w, choices, length, target, schedules)
    ensures best.Some? && IsBest(t, best.value.i, best.value)
    ensures !cut ==> LeastExcess(t, best.value)
  {
    hide WorkingDays, ValidFlow, Touch, StartsOf, TableFor, FromStandIns;
    TableIsValid(w, choices, length, target, schedules);
    best, cut := Alone(t, spent);
    var k :| 0 <= k < |choices| && choices[k].flow == ONE_STEP;
    OneStepInTable(w, choices, k, length, target, schedules);
  }

  /** No outreach gives less excess, or as little and a better score. */
  predicate LeastExcess(t: Table, b: Best)
    requires t.days >= 1 && |t.one| == |t.q|
  {
    forall i :: 0 <= i < |t.q| && t.one[i].Some? ==> NoBetter(t.one[i].value, Score(t, i, t.one[i].value.quiet as real), b)
  }

  lemma {:induction false} OneStepInTable(w: Window, choices: seq<Choice>, k: nat, length: nat, target: nat, schedules: nat -> Schedule)
    requires ValidChoices(choices) && k < |choices| && choices[k].flow == ONE_STEP
    requires 1 <= length <= MAX_PACE * |w.Days()| && target >= 1
    requires FromStandIns(w, choices[k].flow, schedules(k))
    ensures var t := TableFor(w, choices, length, target, schedules);
      k < |t.q| == |t.one| && t.one[k].Some?
  {
    hide PaceFor, WorkingDays, ValidFlow;
    OneStepServes(w, length, target, schedules(k), choices[k].q);
  }

  /** What an outreach gives an FO is a pace they were fitted at, in as many batches of it. */
  lemma {:induction false} OneIsFitted(w: Window, c: Choice, length: nat, target: nat, schedule: Schedule)
    requires ValidFlow(c.flow) && length >= 1 && target >= 1 && |w.Days()| >= 1 && FromStandIns(w, c.flow, schedule)
    ensures var e := One(w, c, length, target, schedule);
      e.Some? ==>
        && e.value.pace >= 1
        && (FittedSparsely(w, Same(c.flow, Ceil(length, e.value.pace))) || FittedFully(w, Same(c.flow, Ceil(length, e.value.pace))))
  {
    hide ValidFlow, WorkingDays, ValidDraft, PaceFor, Crowded, Sparse, FoVerdict, AskPlanner, Count, Ceil;
    StandInIsValid(w, c.flow);
    var d, runs := ShapeDraft(w, c.flow), ShapeRuns(length);
    AtLeastOneFlow(d);
    TopIsPositive(runs);
    ChoiceIsRight(w, d, runs, target, schedule, SHAPE_TRIES);
    var r := PaceFor(w, d, runs, target, schedule, SHAPE_TRIES);
    if r.Pace? {
      var t :| Chosen(w, d, runs, schedule, r, t);
      ShapeCounts(w, c.flow, length, t.pace);
      StandInsAskTheSearch(w, c.flow, t.count, SEARCH_LIMIT, EveryDay);
      StandInsAskTheSearch(w, c.flow, t.count, FEWEST_LIMIT, FewestEmpty);
      assert schedule(t.pace, t.count, EveryDay) == AskPlanner(w, c.flow, t.count, SEARCH_LIMIT, EveryDay) || schedule(t.pace, t.count, EveryDay) == None;
      assert schedule(t.pace, t.count, FewestEmpty) == AskPlanner(w, c.flow, t.count, FEWEST_LIMIT, FewestEmpty);
    }
  }
}
