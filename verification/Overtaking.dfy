/**
 * A week and a day on which a pace above the request wins, choosePace of src/lib/campaign-fit.ts: four
 * contacts on two outreaches, planned by the planner's own search on a board small enough that every
 * one of its answers is exact. One a day is asked for and works with a day left empty; two a day fills
 * every day and is what the fitter returns.
 */
module Overtaking {
  import opened Days
  import opened Sorting
  import opened Placement
  import opened Search
  import opened Fewest
  import opened Starts
  import opened Room
  import opened Queues
  import opened Calendar
  import opened Campaign
  import opened Measure
  import opened Paces
  import opened StandIns
  import opened Trimming
  import opened Edited
  import opened SmallBoards

  // ---------------------------------------------------------------- a week and a day

  /** Monday to the Monday after, six working days, and two outreaches: two steps on consecutive days, and three steps spread out. */
  const WEEK := Window(4, 11)
  const DAILY: Flow := [1, 2]
  const SPREAD: Flow := [1, 4, 5]
  const SPECIAL: Id := 1

  /** One FO who asks for one new contact a day; the third of four contacts is on the spread outreach. */
  function Plan(): Draft {
    Draft(WEEK.start, WEEK.end, [Quota(0, 1)], [Outreach(DEFAULT, DAILY), Outreach(SPECIAL, SPREAD)], map[2 := SPECIAL], map[])
  }

  const OWNER := Fo(0, Some(1))

  function Contact(i: nat): Person {
    Person(i, i, Some(1), i)
  }

  function Contacts(): seq<Person> {
    [Contact(0), Contact(1), Contact(2), Contact(3)]
  }

  lemma {:induction false} FlowsAreValid()
    ensures ValidFlow(DAILY) && ValidFlow(SPREAD)
  {
  }

  lemma {:induction false} PlanIsValid()
    ensures ValidDraft(Plan()) && ValidFlow(DAILY) && ValidFlow(SPREAD)
  {
    hide ValidFlow;
    FlowsAreValid();
    assert Plan().flows[1].id == SPECIAL;
  }

  lemma {:induction false} TheirSteps()
    ensures Steps(Plan(), DEFAULT) == DAILY && Steps(Plan(), SPECIAL) == SPREAD
  {
    assert Plan().flows[0].id == DEFAULT && Plan().flows[1].id == SPECIAL;
  }

  /** The third of these four contacts follows the second outreach, the others Default. */
  predicate ThirdIsSpecial(d: Draft, q: seq<Person>) {
    |q| == 4 && FlowId(d, q[0]) == DEFAULT && FlowId(d, q[1]) == DEFAULT && FlowId(d, q[2]) == SPECIAL && FlowId(d, q[3]) == DEFAULT
  }

  lemma {:induction false} TheThird()
    ensures ThirdIsSpecial(Plan(), Contacts())
  {
  }

  lemma {:induction false} SixDays()
    ensures WEEK.Days() == [4, 5, 6, 7, 8, 11]
  {
    assert WorkingDays(12, 11) == [];
    assert WorkingDays(11, 11) == [11];
    assert WorkingDays(10, 11) == [11];
    assert WorkingDays(9, 11) == [11];
    assert WorkingDays(8, 11) == [8, 11];
    assert WorkingDays(7, 11) == [7, 8, 11];
    assert WorkingDays(6, 11) == [6, 7, 8, 11];
    assert WorkingDays(5, 11) == [5, 6, 7, 8, 11];
  }

  /** The start days of each outreach: five, and three. */
  lemma {:induction false} DailyStarts()
    ensures ValidFlow(DAILY) && StartsOf(WEEK, DAILY) == [Start(0, [4, 5]), Start(1, [5, 6]), Start(2, [6, 7]), Start(3, [7, 8]), Start(4, [8, 11])]
  {
    hide WorkingDays, StartsIn, Journey, FinishesBy, ValidFlow;
    FlowsAreValid();
    SixDays();
    TwoTouches(DAILY, 4, 5, 11);
    TwoTouches(DAILY, 5, 6, 11);
    TwoTouches(DAILY, 6, 7, 11);
    TwoTouches(DAILY, 7, 8, 11);
    TwoTouches(DAILY, 8, 11, 11);
    TwoTouches(DAILY, 11, 12, 11);
    OneMoreStart(WEEK, DAILY, 0);
    OneMoreStart(WEEK, DAILY, 1);
    OneMoreStart(WEEK, DAILY, 2);
    OneMoreStart(WEEK, DAILY, 3);
    OneMoreStart(WEEK, DAILY, 4);
    OneMoreStart(WEEK, DAILY, 5);
  }

  lemma {:induction false} SpreadStarts()
    ensures ValidFlow(SPREAD) && StartsOf(WEEK, SPREAD) == [Start(0, [4, 7, 8]), Start(1, [5, 8, 11]), Start(2, [6, 8, 11])]
  {
    hide WorkingDays, StartsIn, Journey, FinishesBy, ValidFlow;
    FlowsAreValid();
    SixDays();
    ThreeTouches(SPREAD, 4, 7, 8, 11);
    ThreeTouches(SPREAD, 5, 8, 11, 11);
    ThreeTouches(SPREAD, 6, 8, 11, 11);
    ThreeTouches(SPREAD, 7, 11, 12, 11);
    ThreeTouches(SPREAD, 8, 11, 12, 11);
    ThreeTouches(SPREAD, 11, 14, 15, 11);
    OneMoreStart(WEEK, SPREAD, 0);
    OneMoreStart(WEEK, SPREAD, 1);
    OneMoreStart(WEEK, SPREAD, 2);
    OneMoreStart(WEEK, SPREAD, 3);
    OneMoreStart(WEEK, SPREAD, 4);
    OneMoreStart(WEEK, SPREAD, 5);
  }

  /** At one a day every contact is a batch; at two a day the first two share one. */
  function AtOne(): Flows {
    [DAILY, DAILY, SPREAD, DAILY]
  }

  function AtTwo(): Flows {
    [DAILY, SPREAD, DAILY]
  }

  lemma {:induction false} CutAtOne(d: Draft, q: seq<Person>)
    requires ThirdIsSpecial(d, q)
    ensures Batches(d, q, 1) == [Batch(DEFAULT, [q[0]]), Batch(DEFAULT, [q[1]]), Batch(SPECIAL, [q[2]]), Batch(DEFAULT, [q[3]])]
  {
    hide FlowId, Batches;
    CutStep(d, q, 0, 1);
    assert Batches(d, q[..1], 1) == [Batch(DEFAULT, [q[0]])];
    CutStep(d, q, 1, 1);
    assert Batches(d, q[..2], 1) == [Batch(DEFAULT, [q[0]]), Batch(DEFAULT, [q[1]])];
    CutStep(d, q, 2, 1);
    assert Batches(d, q[..3], 1) == [Batch(DEFAULT, [q[0]]), Batch(DEFAULT, [q[1]]), Batch(SPECIAL, [q[2]])];
    CutStep(d, q, 3, 1);
    assert q[..4] == q;
  }

  lemma {:induction false} CutAtTwo(d: Draft, q: seq<Person>)
    requires ThirdIsSpecial(d, q)
    ensures Batches(d, q, 2) == [Batch(DEFAULT, [q[0], q[1]]), Batch(SPECIAL, [q[2]]), Batch(DEFAULT, [q[3]])]
  {
    hide FlowId, Batches;
    CutStep(d, q, 0, 2);
    assert Batches(d, q[..1], 2) == [Batch(DEFAULT, [q[0]])];
    CutStep(d, q, 1, 2);
    assert [q[0]] + [q[1]] == [q[0], q[1]];
    assert Batches(d, q[..2], 2) == [Batch(DEFAULT, [q[0], q[1]])];
    CutStep(d, q, 2, 2);
    assert Batches(d, q[..3], 2) == [Batch(DEFAULT, [q[0], q[1]]), Batch(SPECIAL, [q[2]])];
    CutStep(d, q, 3, 2);
    assert q[..4] == q;
  }

  lemma {:induction false} CutStep(d: Draft, q: seq<Person>, n: nat, size: nat)
    requires n < |q|
    ensures Batches(d, q[..n + 1], size) == Joined(Batches(d, q[..n], size), FlowId(d, q[n]), q[n], size)
    ensures Batches(d, q[..0], size) == []
  {
    hide FlowId;
    assert q[..n + 1][..n] == q[..n];
  }

  /** One more person at the end of these batches. */
  function Joined(before: seq<Batch>, flow: Id, p: Person, size: nat): seq<Batch> {
    if before != [] && before[|before| - 1].flow == flow && |before[|before| - 1].people| < size then
      before[|before| - 1 := before[|before| - 1].(people := before[|before| - 1].people + [p])]
    else before + [Batch(flow, [p])]
  }

  lemma {:induction false} ThreeRuns(d: Draft, q: seq<Person>)
    requires ThirdIsSpecial(d, q)
    ensures Runs(d, q) == [Run(DEFAULT, 2), Run(SPECIAL, 1), Run(DEFAULT, 1)]
  {
    hide FlowId, Runs;
    RunStep(d, q, 0);
    assert Runs(d, q[..1]) == [Run(DEFAULT, 1)];
    RunStep(d, q, 1);
    assert Runs(d, q[..2]) == [Run(DEFAULT, 2)];
    RunStep(d, q, 2);
    assert Runs(d, q[..3]) == [Run(DEFAULT, 2), Run(SPECIAL, 1)];
    RunStep(d, q, 3);
    assert q[..4] == q;
  }

  lemma {:induction false} RunStep(d: Draft, q: seq<Person>, n: nat)
    requires n < |q|
    ensures Runs(d, q[..0]) == []
    ensures var before := Runs(d, q[..n]); var id := FlowId(d, q[n]);
      Runs(d, q[..n + 1]) == if before != [] && before[|before| - 1].flow == id
        then before[|before| - 1 := Run(id, before[|before| - 1].length + 1)] else before + [Run(id, 1)]
  {
    hide FlowId;
    assert q[..n + 1][..n] == q[..n];
  }

  lemma {:induction false} Cuts()
    ensures ValidDraft(Plan())
    ensures FlowsOf(Plan(), Batches(Plan(), Contacts(), 1)) == AtOne()
    ensures FlowsOf(Plan(), Batches(Plan(), Contacts(), 2)) == AtTwo()
  {
    hide ValidDraft, Steps, Batches, ValidFlow, ThirdIsSpecial, Contacts;
    PlanIsValid();
    TheirSteps();
    TheThird();
    CutAtOne(Plan(), Contacts());
    CutAtTwo(Plan(), Contacts());
  }

  // ---------------------------------------------------------------- what can be arranged

  lemma {:induction false} FlowsFit()
    ensures ValidFlows(AtOne()) && ValidFlows(AtTwo()) && !Startless(WEEK, AtOne()) && !Startless(WEEK, AtTwo())
  {
    hide ValidFlow, StartsOf;
    FlowsAreValid();
    DailyStarts();
    SpreadStarts();
  }

  /** Every search of these boards ends within half the smaller limit. */
  lemma {:induction false} FewCalls()
    ensures ValidFlows(AtOne()) && AllStarts(BoardOf(WEEK, AtOne()), 0) + Calls(BoardOf(WEEK, AtOne()), 0) == 499
    ensures ValidFlows(AtTwo()) && Calls(BoardOf(WEEK, AtTwo()), 0) == 96
  {
    hide ValidFlow, StartsOf, AllStarts, Calls;
    FlowsFit();
    DailyStarts();
    SpreadStarts();
    FourCalls(BoardOf(WEEK, AtOne()));
    ThreeCalls(BoardOf(WEEK, AtTwo()));
  }

  lemma {:induction false} FourCalls(b: Board)
    requires |b.options| == 4 && |b.options[0]| == 5 && |b.options[1]| == 5 && |b.options[2]| == 3 && |b.options[3]| == 5
    ensures AllStarts(b, 0) + Calls(b, 0) == 499
  {
    assert AllStarts(b, 4) == 0 && AllStarts(b, 3) == 5;
    assert AllStarts(b, 2) == 8 && AllStarts(b, 1) == 13;
    assert Calls(b, 4) == 1 && Calls(b, 3) == 6;
    assert Calls(b, 2) == 19;
    assert Calls(b, 1) == 96;
  }

  lemma {:induction false} ThreeCalls(b: Board)
    requires |b.options| == 3 && |b.options[0]| == 5 && |b.options[1]| == 3 && |b.options[2]| == 5
    ensures Calls(b, 0) == 96
  {
    assert Calls(b, 3) == 1 && Calls(b, 2) == 6;
    assert Calls(b, 1) == 19;
  }

  /** Where each outreach can start, as starts rather than as a list. */
  lemma {:induction false} DailyStart(o: Start)
    ensures ValidFlow(DAILY) && (IsStart(WEEK, DAILY, o) <==>
      o in [Start(0, [4, 5]), Start(1, [5, 6]), Start(2, [6, 7]), Start(3, [7, 8]), Start(4, [8, 11])])
  {
    hide ValidFlow, StartsOf, IsStart;
    FlowsAreValid();
    DailyStarts();
    StartsAreOptions(WEEK, DAILY);
  }

  lemma {:induction false} SpreadStart(o: Start)
    ensures ValidFlow(SPREAD) && (IsStart(WEEK, SPREAD, o) <==> o in [Start(0, [4, 7, 8]), Start(1, [5, 8, 11]), Start(2, [6, 8, 11])])
  {
    hide ValidFlow, StartsOf, IsStart;
    FlowsAreValid();
    SpreadStarts();
    StartsAreOptions(WEEK, SPREAD);
  }

  const A := Start(0, [4, 5])
  const B := Start(1, [5, 8, 11])
  const C := Start(2, [6, 7])
  const LATER := Start(1, [5, 6])
  const WEDNESDAY := Start(2, [6, 8, 11])
  const FRIDAY := Start(4, [8, 11])

  /** Three batches can touch every day. */
  lemma {:induction false} ThreeCover()
    ensures ValidFlows(AtTwo())
    ensures exists plan :: Arrangement(WEEK, AtTwo(), plan) && Covers(WEEK, plan)
  {
    hide ValidFlow, IsStart, WorkingDays, Compatible, QuietDays;
    FlowsAreValid();
    DailyStart(A);
    SpreadStart(B);
    DailyStart(C);
    ThreeTogether();
    EveryDayTouched();
    assert Arrangement(WEEK, AtTwo(), [A, B, C]);
  }

  lemma {:induction false} ThreeTogether()
    ensures Compatible([A, B, C])
  {
    hide Apart, NeverThree;
    ApartByStep(A, B);
    ApartByStep(A, C);
    ApartByStep(B, C);
    ThreeNeverMeet(A, B, C);
  }

  lemma {:induction false} EveryDayTouched()
    ensures Covers(WEEK, [A, B, C])
  {
    hide WorkingDays;
    SixDays();
    var plan := [A, B, C];
    assert plan[0] == A && plan[1] == B && plan[2] == C;
    assert 4 in A.dates && 5 in A.dates && 6 in C.dates && 7 in C.dates && 8 in B.dates && 11 in B.dates;
  }

  /** Two journeys whose steps all differ. */
  lemma {:induction false} ApartByStep(x: Start, y: Start)
    requires forall s :: 0 <= s < |x.dates| && s < |y.dates| ==> x.dates[s] != y.dates[s]
    ensures Apart(x, y)
  {
  }

  lemma {:induction false} ThreeNeverMeet(x: Start, y: Start, z: Start)
    requires forall d :: d in x.dates && d in y.dates ==> d !in z.dates
    ensures NeverThree(x, y, z)
  {
  }

  /** Four batches can be placed, too. */
  lemma {:induction false} FourFit()
    ensures ValidFlows(AtOne())
    ensures exists plan :: Arrangement(WEEK, AtOne(), plan)
  {
    hide ValidFlow, IsStart, Compatible;
    FlowsAreValid();
    DailyStart(A);
    DailyStart(LATER);
    SpreadStart(WEDNESDAY);
    DailyStart(FRIDAY);
    FourTogether();
    assert Arrangement(WEEK, AtOne(), [A, LATER, WEDNESDAY, FRIDAY]);
  }

  lemma {:induction false} FourTogether()
    ensures Compatible([A, LATER, WEDNESDAY, FRIDAY])
  {
    hide Apart, NeverThree;
    ApartByStep(A, LATER);
    ApartByStep(A, WEDNESDAY);
    ApartByStep(A, FRIDAY);
    ApartByStep(LATER, WEDNESDAY);
    ApartByStep(LATER, FRIDAY);
    ApartByStep(WEDNESDAY, FRIDAY);
    ThreeNeverMeet(A, LATER, WEDNESDAY);
    ThreeNeverMeet(A, LATER, FRIDAY);
    ThreeNeverMeet(A, WEDNESDAY, FRIDAY);
    ThreeNeverMeet(LATER, WEDNESDAY, FRIDAY);
  }

  /** But four never touch every day: the third must start on the first Wednesday, and nothing is left for the Thursday. */
  lemma {:induction false} FourNeverCover(plan: seq<Start>)
    requires ValidFlows(AtOne()) && Arrangement(WEEK, AtOne(), plan)
    ensures !Covers(WEEK, plan)
  {
    hide ValidFlow, IsStart, WorkingDays, NeverThree;
    DailyStart(plan[0]);
    DailyStart(plan[1]);
    SpreadStart(plan[2]);
    DailyStart(plan[3]);
    SixDays();
    assert plan[0].index < plan[1].index < plan[2].index < plan[3].index;
    assert plan[2] == Start(2, [6, 8, 11]) && plan[1] == Start(1, [5, 6]) && plan[0] == Start(0, [4, 5]);
    assert Apart(plan[2], plan[3]);
    assert plan[3].dates[1] != 8;
    assert WEEK.Days()[3] == 7 && forall i :: 0 <= i < |plan| ==> 7 !in plan[i].dates;
    assert 3 in QuietDays(WEEK.Days(), plan);
  }

  // ---------------------------------------------------------------- the choice

  lemma {:induction false} OneOwner()
    ensures ValidDraft(Plan()) && OnePerId(multiset(Contacts())) && OwnedBy(OWNER, Contacts()) && SortedBy(QueueOrder(Plan()), Contacts())
    ensures QueuesOf(Plan(), Contacts(), [OWNER]).stray == []
  {
    hide ValidDraft, QueuesOf, OnePerId, SortedBy, FlowId, FlowPlace;
    PlanIsValid();
    SortedByPriority(Plan(), Contacts());
    OwnersFound(Plan(), OWNER, Contacts());
    DistinctIdsAreOnePerId(Contacts());
  }

  lemma {:induction false} SortedByPriority(d: Draft, queue: seq<Person>)
    requires forall i, j :: 0 <= i < j < |queue| ==> queue[i].priority < queue[j].priority
    ensures SortedBy(QueueOrder(d), queue)
  {
  }

  /** The contacts' queue is this one. */
  lemma {:induction false} TheirQueue()
    ensures ValidDraft(Plan()) && QueuesOf(Plan(), Contacts(), [OWNER]).roster == [Contacts()]
  {
    hide ValidDraft, QueuesOf, SortedBy, OnePerId;
    OneOwner();
    QueuesKeepEveryone(Plan(), Contacts(), [OWNER]);
    OneQueue(QueuesOf(Plan(), Contacts(), [OWNER]).roster);
    QueueHasOneOrder(Plan(), Contacts(), [OWNER], 0, Contacts());
  }

  /** What the planner answers: at two a day every day is filled, at one a day there is a plan but none fills every day. */
  lemma {:induction false} PlannerAnswers()
    ensures ValidDraft(Plan())
    ensures var schedule := MixedSchedule(Plan(), OWNER, Contacts());
      && schedule(2, 3, EveryDay) == Some(0) && schedule(1, 4, EveryDay) != Some(0)
      && schedule(1, 4, FewestEmpty).Some?
  {
    hide ValidDraft, ValidFlow, Batches, FlowsOf, FoVerdict, AskQueue, SortedBy, OnePerId, OwnedBy, Startless, AllStarts, Calls, Arrangement, Covers, Contacts, WorkingDays;
    OneOwner();
    TheirQueue();
    SixDays();
    Cuts();
    FlowsFit();
    FewCalls();
    assert Contacts() != [] by { TheThird(); }
    AskQueueIsVerdict(Plan(), OWNER, Contacts(), 2, EveryDay);
    AskQueueIsVerdict(Plan(), OWNER, Contacts(), 1, EveryDay);
    AskQueueIsVerdict(Plan(), OWNER, Contacts(), 1, FewestEmpty);
    SmallBoardsFillExactly(WEEK, AtTwo(), SEARCH_LIMIT);
    SmallBoardsFillExactly(WEEK, AtOne(), SEARCH_LIMIT);
    SmallBoardsFitExactly(WEEK, AtOne(), FEWEST_LIMIT);
    ThreeCover();
    FourFit();
    forall plan | Arrangement(WEEK, AtOne(), plan)
      ensures !Covers(WEEK, plan)
    {
      FourNeverCover(plan);
    }
  }

  /** Neither pace is crowded, and two a day has touchpoints enough for every day. */
  lemma {:induction false} BothFit()
    ensures ValidDraft(Plan()) && |Plan().flows| >= 1
    ensures var d, runs := Plan(), Runs(Plan(), Contacts());
      && !Crowded(WEEK, d, runs, 1) && !Crowded(WEEK, d, runs, 2) && !Sparse(WEEK, d, runs, 2)
      && !CannotStart(WEEK, d, runs)
  {
    hide ValidDraft, ValidFlow, StartsOf, WorkingDays, Steps, Contacts, Runs;
    PlanIsValid();
    TheThird();
    ThreeRuns(Plan(), Contacts());
    TheirSteps();
    SixDays();
    DailyStarts();
    SpreadStarts();
    RunsMeasured(Plan(), 1);
    RunsMeasured(Plan(), 2);
  }

  /** The three runs at one and at two a day. */
  lemma {:induction false} RunsMeasured(d: Draft, pace: nat)
    requires 1 <= pace <= 2 && |d.flows| >= 1
    ensures var runs := [Run(DEFAULT, 2), Run(SPECIAL, 1), Run(DEFAULT, 1)];
      && Count(runs, pace) == 5 - pace
      && RunTouches(d, runs, pace) == (4 - pace) * |Steps(d, DEFAULT)| + |Steps(d, SPECIAL)|
      && (forall id :: PerFlow(runs, pace, id) == if id == DEFAULT then 4 - pace else if id == SPECIAL then 1 else 0)
  {
    hide Steps, Ceil;
    var a, b, c := Run(DEFAULT, 2), Run(SPECIAL, 1), Run(DEFAULT, 1);
    var first, two, runs := [a], [a, b], [a, b, c];
    assert runs[..2] == two && two[..1] == first && first[..0] == [];
    CeilOfTwo(pace);
    assert Count(first, pace) == 3 - pace && Count(two, pace) == 4 - pace;
    assert RunTouches(d, first, pace) == (3 - pace) * |Steps(d, DEFAULT)|;
    assert RunTouches(d, two, pace) == (3 - pace) * |Steps(d, DEFAULT)| + |Steps(d, SPECIAL)|;
    assert forall id :: PerFlow(first, pace, id) == if id == DEFAULT then 3 - pace else 0;
    assert forall id :: PerFlow(two, pace, id) == if id == DEFAULT then 3 - pace else if id == SPECIAL then 1 else 0;
  }

  lemma {:induction false} CeilOfTwo(pace: nat)
    requires 1 <= pace <= 2
    ensures Ceil(2, pace) == 3 - pace && Ceil(1, pace) == 1
  {
  }

  /** Two tiers: four batches at one a day, three at two a day. */
  lemma {:induction false} TwoTiers(runs: seq<Run>)
    requires runs == [Run(DEFAULT, 2), Run(SPECIAL, 1), Run(DEFAULT, 1)]
    ensures ValidRuns(runs) && Top(runs) == 2
    ensures forall t :: IsTier(runs, 2, t) <==> t == Tier(4, 1) || t == Tier(3, 2)
    ensures |Order(runs, 1)| <= 4
  {
    hide Count, Sort, Only, RunTouches, PerFlow, Steps;
    RunsMeasured(Plan(), 1);
    RunsMeasured(Plan(), 2);
    var first, two := [runs[0]], [runs[0], runs[1]];
    assert runs[..2] == two && two[..1] == first && first[..0] == [];
    assert Longest(first) == 2 && Longest(two) == 2;
    assert Tiers(runs, 0) == [] && |Tiers(runs, 1)| <= 1 && |Tiers(runs, 2)| <= 2;
    var at := Asked(runs, 1);
    OnlySome(Tiers(runs, 2), (t: Tier) => t.count >= at);
    OnlySome(Tiers(runs, 2), (t: Tier) => t.count < at);
  }

  lemma {:induction false} OnlySome(tiers: seq<Tier>, keep: Tier -> bool)
    ensures |Only(tiers, keep)| <= |tiers|
  {
    if tiers != [] {
      OnlySome(tiers[..|tiers| - 1], keep);
    }
  }

  /**
   * A pace of one a day is asked for and works, leaving a day empty; the fitter returns two a day,
   * because that fills every day and a filling pace is looked for everywhere before empty days are
   * accepted. All of it on a queue the planner builds, with the planner's own answers.
   */
  lemma {:induction false} AboveRequestCanWin()
    ensures ValidDraft(Plan()) && QueuesOf(Plan(), Contacts(), [OWNER]).roster == [Contacts()] && Plan().fos[0].batchSize == 1
    ensures var d, queue := Plan(), Contacts(); var schedule := MixedSchedule(d, OWNER, queue);
      && IsTier(Runs(d, queue), Top(Runs(d, queue)), Tier(4, 1)) && Works(WEEK, d, Runs(d, queue), schedule, Tier(4, 1))
      && FitFirst(WEEK, d, queue, |queue|, 1, schedule) == Pace(2, 0)
  {
    hide ValidDraft, ValidFlow, QueuesOf, MixedSchedule, Runs, Crowded, Sparse, CannotStart, Order, FirstFilling, FewestQuiet, WorkingDays, Contacts, ValidRuns, Top, IsTier;
    TheirQueue();
    TheThird();
    PlannerAnswers();
    BothFit();
    var d, queue := Plan(), Contacts();
    var runs, schedule := Runs(d, queue), MixedSchedule(d, OWNER, queue);
    ThreeRuns(d, queue);
    TwoTiers(runs);
    OrderIsTiers(runs, 1);
    var order := Order(runs, 1);
    FillingIsFirst(WEEK, d, runs, order, schedule, EDITED_TRIES);
    assert Tier(3, 2) in order && Fills(WEEK, d, runs, schedule, Tier(3, 2));
    assert !Fills(WEEK, d, runs, schedule, Tier(4, 1));
    var filling := FirstFilling(WEEK, d, runs, order, schedule, EDITED_TRIES);
    assert filling == Some(Tier(3, 2)) by {
      var n :| 0 <= n < |order| && order[n] == filling.value && Fills(WEEK, d, runs, schedule, filling.value);
    }
    assert queue[..|queue|] == queue;
  }
}
