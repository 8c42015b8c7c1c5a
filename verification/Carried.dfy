/**
 * Why the search is exact only while its exhausted flag is down: the flag is shared by all FOs of a
 * campaign (src/lib/campaign-planner.ts), so one FO's spent fewest-days search cuts the next FO's
 * fill-every search short although its own calls are within the limit.
 */
module Carried {
  import opened Days
  import opened Placement
  import opened Search
  import opened Fewest
  import opened Starts
  import opened Room
  import opened Calendar

  /** Monday to Friday, and a limit of three calls. */
  const WEEK := Window(4, 8)
  const LIMIT: nat := 3

  /** One FO's two batches, which can only both end on the Friday, on the same step; the other's, which can cover the week. */
  const LONG: Flow := [1, 5]
  const SHORT: Flow := [1, 4]
  const THREE: Flow := [1, 2, 3]

  function First(): Flows {
    [LONG, SHORT]
  }

  function Second(): Flows {
    [THREE, THREE]
  }

  lemma {:induction false} TheirFlows()
    ensures ValidFlow(LONG) && ValidFlow(SHORT) && ValidFlow(THREE)
    ensures ValidFlows(First()) && ValidFlows(Second())
  {
  }

  lemma {:induction false} FiveDays()
    ensures WEEK.Days() == [4, 5, 6, 7, 8]
  {
    assert WorkingDays(9, 8) == [];
    assert WorkingDays(8, 8) == [8];
    assert WorkingDays(7, 8) == [7, 8];
    assert WorkingDays(6, 8) == [6, 7, 8];
    assert WorkingDays(5, 8) == [5, 6, 7, 8];
  }

  lemma {:induction false} LongStarts()
    ensures ValidFlow(LONG) && StartsOf(WEEK, LONG) == [Start(0, [4, 8]), Start(1, [5, 8])]
  {
    hide WorkingDays, StartsIn, Journey, FinishesBy, ValidFlow;
    TheirFlows();
    FiveDays();
    TwoTouches(LONG, 4, 8, 8);
    TwoTouches(LONG, 5, 8, 8);
    TwoTouches(LONG, 6, 11, 8);
    TwoTouches(LONG, 7, 11, 8);
    TwoTouches(LONG, 8, 12, 8);
    OneMoreStart(WEEK, LONG, 0);
    OneMoreStart(WEEK, LONG, 1);
    OneMoreStart(WEEK, LONG, 2);
    OneMoreStart(WEEK, LONG, 3);
    OneMoreStart(WEEK, LONG, 4);
  }

  lemma {:induction false} ShortStarts()
    ensures ValidFlow(SHORT) && StartsOf(WEEK, SHORT) == [Start(0, [4, 7]), Start(1, [5, 8]), Start(2, [6, 8])]
  {
    hide WorkingDays, StartsIn, Journey, FinishesBy, ValidFlow;
    TheirFlows();
    FiveDays();
    TwoTouches(SHORT, 4, 7, 8);
    TwoTouches(SHORT, 5, 8, 8);
    TwoTouches(SHORT, 6, 8, 8);
    TwoTouches(SHORT, 7, 11, 8);
    TwoTouches(SHORT, 8, 11, 8);
    OneMoreStart(WEEK, SHORT, 0);
    OneMoreStart(WEEK, SHORT, 1);
    OneMoreStart(WEEK, SHORT, 2);
    OneMoreStart(WEEK, SHORT, 3);
    OneMoreStart(WEEK, SHORT, 4);
  }

  lemma {:induction false} ThreeStarts()
    ensures ValidFlow(THREE) && StartsOf(WEEK, THREE) == [Start(0, [4, 5, 6]), Start(1, [5, 6, 7]), Start(2, [6, 7, 8])]
  {
    hide WorkingDays, StartsIn, Journey, FinishesBy, ValidFlow;
    TheirFlows();
    FiveDays();
    ThreeTouches(THREE, 4, 5, 6, 8);
    ThreeTouches(THREE, 5, 6, 7, 8);
    ThreeTouches(THREE, 6, 7, 8, 8);
    ThreeTouches(THREE, 7, 8, 11, 8);
    ThreeTouches(THREE, 8, 11, 12, 8);
    OneMoreStart(WEEK, THREE, 0);
    OneMoreStart(WEEK, THREE, 1);
    OneMoreStart(WEEK, THREE, 2);
    OneMoreStart(WEEK, THREE, 3);
    OneMoreStart(WEEK, THREE, 4);
  }

  // ---------------------------------------------------------------- the first FO raises the flag

  lemma {:induction false} LongEndsOnFriday(o: Start)
    requires ValidFlow(LONG) && IsStart(WEEK, LONG, o)
    ensures |o.dates| == 2 && o.dates[1] == 8
  {
    hide ValidFlow, StartsOf, IsStart;
    LongStarts();
    StartsAreOptions(WEEK, LONG);
    assert o in StartsOf(WEEK, LONG);
  }

  lemma {:induction false} ShortEndsOnFriday(o: Start)
    requires ValidFlow(SHORT) && IsStart(WEEK, SHORT, o) && o.index >= 1
    ensures |o.dates| == 2 && o.dates[1] == 8
  {
    hide ValidFlow, StartsOf, IsStart;
    ShortStarts();
    StartsAreOptions(WEEK, SHORT);
    assert o in StartsOf(WEEK, SHORT);
  }

  /** The first FO cannot be planned: both batches would send step two on the Friday. */
  lemma {:induction false} FirstHasNoPlan(plan: seq<Start>)
    requires ValidFlows(First())
    ensures !Arrangement(WEEK, First(), plan)
  {
    hide ValidFlow, IsStart, NeverThree;
    if Arrangement(WEEK, First(), plan) {
      TheirFlows();
      assert plan[0].index < plan[1].index;
      ShortEndsOnFriday(plan[1]);
      LongEndsOnFriday(plan[0]);
    }
  }

  lemma {:induction false} FirstIsSpent()
    ensures ValidFlows(First()) && |WEEK.Days()| >= 1
    ensures PlanFo(WEEK, First(), LIMIT, Best, 0, false) == FoPlan(Refused(NeedsSmallerSearch), 0, true)
  {
    hide ValidFlow, StartsOf, WorkingDays, Explore, FindFewest, ValidBoard, Arrangement, Legal;
    TheirFlows();
    FiveDays();
    LongStarts();
    ShortStarts();
    var b := BoardOf(WEEK, First());
    BoardIsValid(WEEK, First());
    forall plan
      ensures !Legal(b, plan)
    {
      FirstHasNoPlan(plan);
      BoardAllows(WEEK, First(), plan);
    }
    SpentAtOnce(b, LIMIT);
    FourTouches();
  }

  lemma {:induction false} FourTouches()
    ensures Touches(First()) == 4
  {
    assert First()[..1] == [LONG] && [LONG][..0] == [];
    assert Touches([LONG]) == 2;
  }

  // ---------------------------------------------------------------- and cuts the second FO's search short

  /** The second FO's board: two batches of three steps, each starting on one of the first three days. */
  predicate SecondBoard(b: Board) {
    b.days == [4, 5, 6, 7, 8] && |b.options| == 2 && b.options[0] == b.options[1] == [MONDAY, TUESDAY, WEDNESDAY]
  }

  const MONDAY := Start(0, [4, 5, 6])
  const TUESDAY := Start(1, [5, 6, 7])
  const WEDNESDAY := Start(2, [6, 7, 8])

  lemma {:induction false} TheBoard()
    ensures ValidFlows(Second()) && SecondBoard(BoardOf(WEEK, Second())) && ValidBoard(BoardOf(WEEK, Second()))
  {
    hide ValidFlow, StartsOf, WorkingDays, ValidBoard;
    TheirFlows();
    FiveDays();
    ThreeStarts();
    BoardIsValid(WEEK, Second());
  }

  /** Pushing three steps onto a table. */
  lemma {:induction false} PutThree(slots: Slots, dates: seq<Day>, d: Day)
    requires |dates| == 3 && dates[0] < dates[1] < dates[2] && d in slots
    ensures Put(slots, dates)[d] == slots[d] + (if d == dates[0] then [0] else if d == dates[1] then [1] else if d == dates[2] then [2] else [])
  {
    PutAt(slots, dates, d);
  }

  /** The empty days of a table over these five days. */
  lemma {:induction false} EmptyOfFive(b: Board, slots: Slots)
    requires SecondBoard(b) && OnBoard(b, slots)
    ensures Empty(b, slots, 5) == (if slots[4] == [] then [0] else []) + (if slots[5] == [] then [1] else []) + (if slots[6] == [] then [2] else [])
      + (if slots[7] == [] then [3] else []) + (if slots[8] == [] then [4] else [])
  {
    assert Empty(b, slots, 0) == [];
    assert Empty(b, slots, 1) == if slots[4] == [] then [0] else [];
    assert Empty(b, slots, 2) == Empty(b, slots, 1) + (if slots[5] == [] then [1] else []);
    assert Empty(b, slots, 3) == Empty(b, slots, 2) + (if slots[6] == [] then [2] else []);
    assert Empty(b, slots, 4) == Empty(b, slots, 3) + (if slots[7] == [] then [3] else []);
  }

  lemma {:induction false} TouchesLeft(b: Board)
    requires SecondBoard(b) && ValidBoard(b)
    ensures Suffix(b, 0) == 6 && Suffix(b, 1) == 3
  {
    assert Suffix(b, 2) == 0;
  }

  /** With both batches placed at their first chance the Friday is empty: no. */
  lemma {:induction false} BothEarly(b: Board, t: Trail)
    requires SecondBoard(b) && ValidBoard(b) && ValidTrail(b, t) && t.slots[8] == [] && t.count < LIMIT
    ensures Explore(b, EVERY, LIMIT, 2, 1, t) == (false, t.(count := t.count + 1))
  {
    hide ValidBoard;
    EmptyOfFive(b, t.slots);
  }

  /** The table with the first batch on Monday. */
  predicate MondayTaken(slots: Slots) {
    && 4 in slots && 5 in slots && 6 in slots && 7 in slots && 8 in slots
    && slots[4] == [0] && slots[5] == [1] && slots[6] == [2] && slots[7] == [] && slots[8] == []
  }

  lemma {:induction false} MondayTakes(b: Board)
    requires SecondBoard(b)
    ensures MondayTaken(Put(Clear(b), MONDAY.dates))
  {
    hide Put;
    forall d | d in b.days
      ensures Put(Clear(b), MONDAY.dates)[d] == if d == 4 then [0] else if d == 5 then [1] else if d == 6 then [2] else []
    {
      PutThree(Clear(b), MONDAY.dates, d);
    }
    assert 4 in b.days && 5 in b.days && 6 in b.days && 7 in b.days && 8 in b.days;
  }

  lemma {:induction false} FridayStaysEmpty(slots: Slots)
    requires MondayTaken(slots)
    ensures Put(slots, TUESDAY.dates)[8] == []
  {
    hide Put;
    PutThree(slots, TUESDAY.dates, 8);
  }

  /** The second batch, with the first on Monday and the flag up: Tuesday fails, and Wednesday is never tried. */
  lemma {:induction false} SecondBatch(b: Board, t: Trail)
    requires SecondBoard(b) && ValidBoard(b) && ValidTrail(b, t) && MondayTaken(t.slots) && t.out && t.failed == {} && t.count == 1
    ensures var (ok, u) := Explore(b, EVERY, LIMIT, 1, 0, t); !ok && u.out && u.count == 3
  {
    hide ValidBoard, Put, Drop, Explore, TryStarts, Open, Suffix, Empty, ValidStart, MondayTaken, SecondBoard;
    var v := t.(count := 2);
    var o := TUESDAY;
    SecondOptions(b);
    StartFacts(b, 1, o);
    TuesdayIsOpen(t.slots);
    EntersSecond(b, t);
    TrySkips(b, EVERY, LIMIT, 1, 0, 3, 0, v);
    TryEnters(b, EVERY, LIMIT, 1, 0, 3, 1, v);
    FridayStaysEmpty(t.slots);
    BothEarly(b, Forth(v, 1, o));
  }

  lemma {:induction false} SecondOptions(b: Board)
    requires SecondBoard(b)
    ensures |b.options| == 2 && |b.options[1]| == 3 && b.options[1][0].index == 0 && b.options[1][1] == TUESDAY && TUESDAY in b.options[1]
    ensures 8 in b.days
  {
    assert b.days[4] == 8;
  }

  lemma {:induction false} TuesdayIsOpen(slots: Slots)
    requires MondayTaken(slots)
    ensures 5 in slots && 6 in slots && 7 in slots && Open(slots, TUESDAY.dates)
  {
  }

  lemma {:induction false} EntersSecond(b: Board, t: Trail)
    requires SecondBoard(b) && ValidBoard(b) && ValidTrail(b, t) && MondayTaken(t.slots) && t.failed == {} && t.count == 1
    ensures Explore(b, EVERY, LIMIT, 1, 0, t) == TryStarts(b, EVERY, LIMIT, 1, 0, 3, 0, t.(count := 2))
  {
    hide ValidBoard, TryStarts, Latest, Suffix, Empty;
    EmptyOfFive(b, t.slots);
    TouchesLeft(b);
  }

  /** The whole search with the flag up says no after three calls. */
  lemma {:induction false} SecondIsCut(b: Board)
    requires SecondBoard(b) && ValidBoard(b)
    ensures var (ok, u) := SearchEvery(b, LIMIT, 0, true); !ok && u.count == 3
  {
    hide ValidBoard, Put, Drop, Explore, TryStarts, Open, Suffix, Empty, ValidStart;
    var t := Fresh(b, 0, true);
    var v := t.(count := 1);
    StartFacts(b, 0, b.options[0][0]);
    assert Open(t.slots, MONDAY.dates) by { NothingIsOpen(b); }
    EntersFirst(b, t);
    TryEnters(b, EVERY, LIMIT, 0, -1, 0, 0, v);
    MondayTakes(b);
    SecondBatch(b, Forth(v, 0, MONDAY));
  }

  lemma {:induction false} NothingIsOpen(b: Board)
    requires SecondBoard(b)
    ensures Open(Clear(b), MONDAY.dates)
  {
  }

  lemma {:induction false} EntersFirst(b: Board, t: Trail)
    requires SecondBoard(b) && ValidBoard(b) && t == Fresh(b, 0, true)
    ensures Explore(b, EVERY, LIMIT, 0, -1, t) == TryStarts(b, EVERY, LIMIT, 0, -1, 0, 0, t.(count := 1))
  {
    hide ValidBoard, TryStarts, Latest, Suffix, Empty;
    EmptyOfFive(b, t.slots);
    TouchesLeft(b);
  }

  /** Monday and Wednesday cover the week. */
  lemma {:induction false} SecondCanCover()
    ensures ValidFlows(Second()) && Arrangement(WEEK, Second(), [MONDAY, WEDNESDAY]) && Covers(WEEK, [MONDAY, WEDNESDAY])
  {
    hide ValidFlow, StartsOf, IsStart, WorkingDays;
    TheirFlows();
    FiveDays();
    ThreeStarts();
    StartsAreOptions(WEEK, THREE);
    assert StartsOf(WEEK, THREE)[0] == MONDAY && StartsOf(WEEK, THREE)[2] == WEDNESDAY;
    var plan := [MONDAY, WEDNESDAY];
    assert plan[0] == MONDAY && plan[1] == WEDNESDAY;
    assert Apart(MONDAY, WEDNESDAY);
    assert 4 in MONDAY.dates && 5 in MONDAY.dates && 6 in MONDAY.dates && 7 in WEDNESDAY.dates && 8 in WEDNESDAY.dates;
  }

  /**
   * Two FOs of one campaign, planned one after the other under a limit of three calls. The first
   * cannot be planned and spends its search, which raises the flag without counting a call. The
   * second's fill-every search then says no after three calls, within the limit, although an
   * arrangement covers its every day. (The calendar is not valid anyway, because of the first.)
   */
  lemma {:induction false} FlagCutsSearch()
    ensures |WEEK.Days()| >= 1 && ValidFlows(First()) && ValidFlows(Second()) && ValidBoard(BoardOf(WEEK, Second()))
    ensures var first := PlanFo(WEEK, First(), LIMIT, Best, 0, false);
      && first == FoPlan(Refused(NeedsSmallerSearch), 0, true)
      && (var (ok, u) := SearchEvery(BoardOf(WEEK, Second()), LIMIT, first.nodes, first.exhausted); !ok && u.count <= LIMIT)
    ensures exists plan :: Arrangement(WEEK, Second(), plan) && Covers(WEEK, plan)
  {
    hide ValidFlow, StartsOf, WorkingDays, PlanFo, SearchEvery, ValidBoard, Arrangement, Covers;
    FirstIsSpent();
    TheBoard();
    SecondIsCut(BoardOf(WEEK, Second()));
    SecondCanCover();
  }
}
