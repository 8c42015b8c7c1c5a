/**
 * Planning on stand-in contacts: Window.canSchedule of src/lib/campaign-fit.ts, and why its answer
 * is the real queue's.
 */
module StandIns {
  import opened Days
  import opened Sorting
  import opened Placement
  import opened Search
  import opened Fewest
  import opened Starts
  import opened Room
  import opened Queues
  import opened Calendar
  import opened Campaign
  import opened Measure

  const SEARCH_LIMIT: nat := 20000
  const FEWEST_LIMIT: nat := 1000

  function LimitOf(fill: Fill): nat {
    if fill == EveryDay then SEARCH_LIMIT else FEWEST_LIMIT
  }

  /** `count` contacts of one owner, starting one a day on one outreach. */
  function StandInPeople(count: nat): (people: seq<Person>)
    ensures |people| == count
  {
    seq(count, i requires 0 <= i < count => Person(i, i, Some(1), 5))
  }

  function StandInDraft(w: Window, f: Flow): Draft {
    Draft(w.start, w.end, [Quota(0, 1)], [Outreach(DEFAULT, f)], map[], map[])
  }

  const TEAM: seq<Fo> := [Fo(0, Some(1))]

  lemma {:induction false} StandInIsValid(w: Window, f: Flow)
    requires ValidFlow(f)
    ensures ValidDraft(StandInDraft(w, f)) && WindowOf(StandInDraft(w, f)) == w
  {
  }

  /** quietDays: how many of the first `n` working days no journey touches. */
  function Idle(days: seq<Day>, journeys: seq<seq<Day>>, n: nat): nat
    requires n <= |days|
  {
    if n == 0 then 0
    else Idle(days, journeys, n - 1) + (if exists j :: 0 <= j < |journeys| && days[n - 1] in journeys[j] then 0 else 1)
  }

  /** It is the number of days an arrangement leaves empty. */
  lemma {:induction false} IdleIsQuiet(w: Window, plan: seq<Start>)
    ensures Idle(w.Days(), DatesOf(plan), |w.Days()|) == |QuietDays(w.Days(), plan)|
    ensures Idle(w.Days(), DatesOf(plan), |w.Days()|) == 0 <==> Covers(w, plan)
  {
    hide Idle;
    IdleCounts(w.Days(), plan, |w.Days()|);
    assert QuietUpTo(w.Days(), plan, |w.Days()|) == QuietDays(w.Days(), plan);
  }

  ghost function QuietUpTo(days: seq<Day>, plan: seq<Start>, n: nat): set<nat>
    requires n <= |days|
  {
    set x: nat | x < n && forall i :: 0 <= i < |plan| ==> days[x] !in plan[i].dates
  }

  lemma {:induction false} IdleCounts(days: seq<Day>, plan: seq<Start>, n: nat)
    requires n <= |days|
    ensures Idle(days, DatesOf(plan), n) == |QuietUpTo(days, plan, n)|
  {
    hide DatesOf;
    if n == 0 {
      assert QuietUpTo(days, plan, 0) == {};
    } else {
      IdleCounts(days, plan, n - 1);
      TouchedMeans(days, plan, n - 1);
      var before, all := QuietUpTo(days, plan, n - 1), QuietUpTo(days, plan, n);
      if n - 1 in all {
        assert all == before + {n - 1};
      } else {
        assert all == before;
      }
    }
  }

  lemma {:induction false} TouchedMeans(days: seq<Day>, plan: seq<Start>, x: nat)
    requires x < |days|
    ensures (exists j :: 0 <= j < |DatesOf(plan)| && days[x] in DatesOf(plan)[j]) <==> exists i :: 0 <= i < |plan| && days[x] in plan[i].dates
  {
    if i :| 0 <= i < |plan| && days[x] in plan[i].dates {
      assert days[x] in DatesOf(plan)[i];
    }
    if j :| 0 <= j < |DatesOf(plan)| && days[x] in DatesOf(plan)[j] {
      assert days[x] in plan[j].dates;
    }
  }

  function Journeys(batches: seq<PlannedBatch>): (dates: seq<seq<Day>>)
    ensures |dates| == |batches|
  {
    seq(|batches|, i requires 0 <= i < |batches| => batches[i].dates)
  }

  /** A calendar's empty days for its one FO, or None when it is not valid. */
  function QuietOf(days: seq<Day>, c: CampaignCalendar): Option<nat> {
    if c.valid then Some(Idle(days, Journeys(c.batches), |days|)) else None
  }

  /** The planner asked afresh about `count` batches on one outreach. */
  function AskPlanner(w: Window, f: Flow, count: nat, limit: nat, fill: Fill): Option<nat>
    requires ValidFlow(f)
  {
    StandInIsValid(w, f);
    QuietOf(w.Days(), BuildCalendar(StandInDraft(w, f), StandInPeople(count), TEAM, limit, fill))
  }

  /** The same verdict, straight from the search on `flows`. */
  function FoVerdict(w: Window, flows: Flows, limit: nat, fill: Fill): Option<nat>
    requires ValidFlows(flows) && |w.Days()| >= 1
  {
    var r := PlanFo(w, flows, limit, fill, 0, false);
    match r.result
    case Planned(dates, _) => Some(Idle(w.Days(), dates, |w.Days()|))
    case Refused(_) => None
  }

  /** A verdict of so many days is an arrangement that leaves exactly so many empty. */
  lemma {:induction false} VerdictIsArrangement(w: Window, flows: Flows, limit: nat, fill: Fill)
    requires ValidFlows(flows) && |w.Days()| >= 1
    ensures var v := FoVerdict(w, flows, limit, fill);
      v.Some? ==> exists plan :: Arrangement(w, flows, plan) && |QuietDays(w.Days(), plan)| == v.value && (fill == EveryDay ==> v.value == 0)
  {
    hide ValidFlow, WorkingDays, PlanFo, Arrangement, QuietDays, Idle;
    PlanFoExact(w, flows, limit, fill, 0, false);
    var r := PlanFo(w, flows, limit, fill, 0, false);
    if r.result.Planned? {
      var plan :| Arranged(w, flows, r.result.dates, plan) && (fill == EveryDay ==> Covers(w, plan));
      IdleIsQuiet(w, plan);
    }
  }

  function Same(f: Flow, count: nat): (flows: Flows)
    ensures |flows| == count
  {
    seq(count, _ => f)
  }

  // ---------------------------------------------------------------- a campaign of one FO

  /** With one FO and nobody stray, the calendar is that FO's answer. */
  lemma {:induction false} OneFoCalendar(d: Draft, people: seq<Person>, fos: seq<Fo>, limit: nat, fill: Fill)
    requires ValidDraft(d) && |d.fos| == 1 && WindowOf(d).Days() != [] && people != []
    requires QueuesOf(d, people, fos).stray == []
    ensures var roster := QueuesOf(d, people, fos).roster;
      QuietOf(WindowOf(d).Days(), BuildCalendar(d, people, fos, limit, fill))
      == FoVerdict(WindowOf(d), FlowsOf(d, BatchesFor(d, roster, 0)), limit, fill)
  {
    hide ValidDraft, WorkingDays, PlanFo, QueuesOf, BatchesFor, FlowsOf, Idle;
    var roster := QueuesOf(d, people, fos).roster;
    var flows := FlowsOf(d, BatchesFor(d, roster, 0));
    var r := PlanFo(WindowOf(d), flows, limit, fill, 0, false);
    ValidCalendarIsSound(d, people, fos, limit, fill);
    OneFoProgress(d, roster, limit, fill);
    if r.result.Planned? {
      PlanFoExact(WindowOf(d), flows, limit, fill, 0, false);
      StampedJourneys(d.fos[0].id, BatchesFor(d, roster, 0), r.result.dates);
    }
  }

  lemma {:induction false} OneFoProgress(d: Draft, roster: Roster, limit: nat, fill: Fill)
    requires ValidDraft(d) && |roster| == |d.fos| == 1 && |WindowOf(d).Days()| >= 1
    ensures var r := PlanFo(WindowOf(d), FlowsOf(d, BatchesFor(d, roster, 0)), limit, fill, 0, false);
      var so := PlanUpTo(d, roster, 1, limit, fill);
      match r.result
      case Planned(dates, _) => so.issues == [] && so.batches == Stamp(d.fos[0].id, BatchesFor(d, roster, 0), dates)
      case Refused(_) => so.issues != []
  {
    hide ValidDraft, WorkingDays, PlanFo, BatchesFor, FlowsOf;
    assert PlanUpTo(d, roster, 0, limit, fill) == Progress([], [], 0, false);
  }

  lemma {:induction false} StampedJourneys(fo: Id, batches: seq<Batch>, dates: seq<seq<Day>>)
    requires |dates| == |batches|
    ensures Journeys(Stamp(fo, batches, dates)) == dates
  {
  }

  // ---------------------------------------------------------------- batches of one outreach

  /** A queue on one outreach makes ceil(length / pace) batches, all on it. */
  lemma {:induction false} OneOutreachBatches(d: Draft, queue: seq<Person>, pace: nat, id: Id)
    requires ValidDraft(d) && pace >= 1 && forall i :: 0 <= i < |queue| ==> FlowId(d, queue[i]) == id
    ensures FlowsOf(d, Batches(d, queue, pace)) == Same(Steps(d, id), Ceil(|queue|, pace))
  {
    hide ValidDraft, FlowId, Ceil, Steps, Batches;
    AtLeastOneFlow(d);
    ClosedFormIsBatching(d, queue, pace);
    OneOutreachRuns(d, queue, id);
    AllOnOutreach(d, queue, pace, id);
    var runs := Runs(d, queue);
    if queue != [] {
      assert Count(runs[..0], pace) == 0;
    } else {
      NoneToCeil(pace);
    }
  }

  lemma {:induction false} NoneToCeil(pace: nat)
    requires pace >= 1
    ensures Ceil(0, pace) == 0
  {
  }

  lemma {:induction false} OneOutreachRuns(d: Draft, queue: seq<Person>, id: Id)
    requires forall i :: 0 <= i < |queue| ==> FlowId(d, queue[i]) == id
    ensures Runs(d, queue) == if queue == [] then [] else [Run(id, |queue|)]
  {
    hide FlowId;
    if queue != [] {
      OneOutreachRuns(d, queue[..|queue| - 1], id);
    }
  }

  lemma {:induction false} AllOnOutreach(d: Draft, queue: seq<Person>, pace: nat, id: Id)
    requires forall i :: 0 <= i < |queue| ==> FlowId(d, queue[i]) == id
    ensures forall i :: 0 <= i < |Batches(d, queue, pace)| ==> Batches(d, queue, pace)[i].flow == id
  {
    hide FlowId;
    if queue != [] {
      AllOnOutreach(d, queue[..|queue| - 1], pace, id);
    }
  }

  // ---------------------------------------------------------------- the stand-ins' own queue

  lemma {:induction false} NobodyStray(d: Draft, fos: seq<Fo>, people: seq<Person>, roster: Roster)
    requires |roster| == |d.fos|
    requires forall i :: 0 <= i < |people| && people[i].owner.Some? ==> OwnersQueue(d, fos, people[i]).Some?
    ensures DealOwned(d, fos, people, roster).1 == []
  {
    if people != [] {
      NobodyStray(d, fos, people[..|people| - 1], roster);
    }
  }

  lemma {:induction false} StandInQueue(w: Window, f: Flow, count: nat)
    requires ValidFlow(f)
    ensures ValidDraft(StandInDraft(w, f))
    ensures var q := QueuesOf(StandInDraft(w, f), StandInPeople(count), TEAM);
      q.stray == [] && |q.roster| == 1 && |q.roster[0]| == count
  {
    hide ValidFlow, Sort, DealOwned, DealFree, OwnersQueue;
    StandInIsValid(w, f);
    var d, people := StandInDraft(w, f), StandInPeople(count);
    var ordered := Sort(ByName, people);
    SortKeeps(ByName, people);
    forall i | 0 <= i < |ordered|
      ensures ordered[i].owner == Some(1)
    {
      assert ordered[i] in multiset(ordered) && ordered[i] in multiset(people);
    }
    forall i | 0 <= i < |ordered|
      ensures OwnersQueue(d, TEAM, ordered[i]).Some?
    {
      TeamOwns(w, f, ordered[i]);
    }
    NobodyStray(d, TEAM, ordered, seq(|d.fos|, _ => []));
    QueuesKeepEveryone(d, people, TEAM);
    var roster := QueuesOf(d, people, TEAM).roster;
    assert Everyone(roster) == roster[0] by { OneQueue(roster); }
    assert |multiset(Everyone(roster))| == |multiset(people)|;
  }

  lemma {:induction false} OneQueue(roster: Roster)
    requires |roster| == 1
    ensures Everyone(roster) == roster[0]
  {
    assert Everyone(roster[..0]) == [];
  }

  lemma {:induction false} TeamOwns(w: Window, f: Flow, p: Person)
    requires p.owner == Some(1)
    ensures OwnersQueue(StandInDraft(w, f), TEAM, p).Some?
  {
  }

  /** What canSchedule asks is the search on `count` copies of the outreach. */
  lemma {:induction false} StandInsAskTheSearch(w: Window, f: Flow, count: nat, limit: nat, fill: Fill)
    requires ValidFlow(f) && |w.Days()| >= 1
    ensures AskPlanner(w, f, count, limit, fill) == FoVerdict(w, Same(f, count), limit, fill)
  {
    hide ValidFlow, WorkingDays, QueuesOf, Idle, ValidDraft, BuildCalendar;
    var d, people := StandInDraft(w, f), StandInPeople(count);
    StandInIsValid(w, f);
    StandInQueue(w, f, count);
    if count == 0 {
      NobodyToPlan(w, f, limit, fill);
    } else {
      var roster := QueuesOf(d, people, TEAM).roster;
      OneFoCalendar(d, people, TEAM, limit, fill);
      OneOutreachBatches(d, roster[0], 1, DEFAULT);
      CeilOfOne(count);
      DefaultSteps(w, f);
    }
  }

  lemma {:induction false} DefaultSteps(w: Window, f: Flow)
    ensures Steps(StandInDraft(w, f), DEFAULT) == f
  {
  }

  lemma {:induction false} CeilOfOne(count: nat)
    ensures Ceil(count, 1) == count
  {
  }

  lemma {:induction false} NobodyToPlan(w: Window, f: Flow, limit: nat, fill: Fill)
    requires ValidFlow(f) && |w.Days()| >= 1
    ensures AskPlanner(w, f, 0, limit, fill) == None == FoVerdict(w, Same(f, 0), limit, fill)
  {
    StandInIsValid(w, f);
  }

  /**
   * The stand-in abstraction: for one FO whose queue is on one outreach, the answer on stand-ins,
   * one a batch, is the verdict and the empty days of the real calendar with as many batches, and an
   * answer of so many days is an arrangement of the real batches that leaves exactly so many empty.
   */
  lemma {:induction false} StandInsAreReal(d: Draft, people: seq<Person>, fos: seq<Fo>, limit: nat, fill: Fill, id: Id)
    requires ValidDraft(d) && |d.fos| == 1 && WindowOf(d).Days() != [] && people != []
    requires QueuesOf(d, people, fos).stray == []
    requires forall p :: p in people ==> FlowId(d, p) == id
    ensures ValidFlow(Steps(d, id)) && d.fos[0].batchSize >= 1
    ensures AskPlanner(WindowOf(d), Steps(d, id), Ceil(|people|, d.fos[0].batchSize), limit, fill)
      == QuietOf(WindowOf(d).Days(), BuildCalendar(d, people, fos, limit, fill))
    ensures var quiet := AskPlanner(WindowOf(d), Steps(d, id), Ceil(|people|, d.fos[0].batchSize), limit, fill);
      quiet.Some? ==> exists plan ::
        && Arrangement(WindowOf(d), FlowsOf(d, BatchesFor(d, QueuesOf(d, people, fos).roster, 0)), plan)
        && |QuietDays(WindowOf(d).Days(), plan)| == quiet.value
  {
    hide ValidFlow, WorkingDays, QueuesOf, Idle, BuildCalendar, AskPlanner, FoVerdict, QuietOf, Ceil, Steps, Arrangement, QuietDays;
    VerdictIsArrangement(WindowOf(d), FlowsOf(d, BatchesFor(d, QueuesOf(d, people, fos).roster, 0)), limit, fill);
    StepsAreValid(d, id);
    var queue := QueuesOf(d, people, fos).roster[0];
    QueuesKeepEveryone(d, people, fos);
    OneQueue(QueuesOf(d, people, fos).roster);
    assert |multiset(queue)| == |multiset(people)|;
    forall i | 0 <= i < |queue|
      ensures FlowId(d, queue[i]) == id
    {
      assert queue[i] in multiset(queue) && queue[i] in multiset(people);
    }
    OneFoCalendar(d, people, fos, limit, fill);
    OneOutreachBatches(d, queue, d.fos[0].batchSize, id);
    StandInsAskTheSearch(WindowOf(d), Steps(d, id), Ceil(|people|, d.fos[0].batchSize), limit, fill);
  }

  /** A fill-every success is kept, with the same dates, under any limit that leaves as many calls. */
  lemma {:induction false} EverySuccessIsKept(w: Window, flows: Flows, limit: nat, roomier: nat, from: nat)
    requires ValidFlows(flows) && |w.Days()| >= 1 && from + limit <= roomier
    ensures var r := PlanFo(w, flows, limit, EveryDay, 0, false); var s := PlanFo(w, flows, roomier, EveryDay, from, false);
      && (r.result.Planned? ==> s.result == r.result)
      && (r.result.Planned? ==> PlanFo(w, flows, roomier, Best, from, false).result == r.result)
  {
    hide ValidFlow, ValidBoard, Explore, FindFewest, StartsOf, Touches, WorkingDays;
    if flows != [] && !Oversized(w, flows, EveryDay) && !Startless(w, flows) {
      BoardIsValid(w, flows);
      var b := BoardOf(w, flows);
      var t := Fresh(b, 0, false);
      SuccessIsWithinLimit(b, EVERY, limit, 0, -1, t);
      if SearchEvery(b, limit, 0, false).0 {
        MoreRoomSameWalk(b, EVERY, limit, 0, -1, t, roomier, from);
        assert Recounted(t, from) == Fresh(b, from, false);
      }
    }
  }

  // ---------------------------------------------------------------- the cache

  datatype Query = Query(shape: Flow, count: nat, fill: Fill)

  /** The fitter's view of one window: answers kept by outreach shape, and how often a shape outran the search. */
  class FitWindow {
    const w: Window
    var feasible: map<Query, Option<nat>>
    var gaveUp: map<Flow, nat>
    var searches: nat

    /** Every answer kept is the planner's own. */
    ghost predicate Valid()
      reads this
    {
      forall key :: key in feasible ==> ValidFlow(key.shape) && feasible[key] == AskPlanner(w, key.shape, key.count, LimitOf(key.fill), key.fill)
    }

    constructor (window: Window)
      ensures Valid() && w == window && feasible == map[] && gaveUp == map[] && searches == 0
    {
      w, feasible, gaveUp, searches := window, map[], map[], 0;
    }

    /** This shape has outrun the fill-every search twice. */
    function TiredOf(f: Flow): bool
      reads this
    {
      f in gaveUp && gaveUp[f] >= 2
    }

    /** canSchedule: the planner's answer, kept; or None, unasked, once the shape has outrun the search twice. */
    method CanSchedule(f: Flow, count: nat, fill: Fill) returns (quiet: Option<nat>)
      requires Valid() && ValidFlow(f)
      modifies this
      ensures Valid()
      ensures quiet == AskPlanner(w, f, count, LimitOf(fill), fill) ||
        (quiet == None && fill == EveryDay && old(TiredOf(f)) && Query(f, count, fill) !in old(feasible))
      ensures old(searches) <= searches <= old(searches) + 1
      ensures Query(f, count, fill) in old(feasible) ==> searches == old(searches)
      ensures forall key :: key in old(feasible) ==> key in feasible && feasible[key] == old(feasible)[key]
    {
      hide ValidFlow, AskPlanner, BuildCalendar, WorkingDays;
      var key := Query(f, count, fill);
      if key in feasible {
        return feasible[key];
      }
      if fill == EveryDay && f in gaveUp && gaveUp[f] >= 2 {
        return None;
      }
      StandInIsValid(w, f);
      searches := searches + 1;
      var calendar := BuildCampaignCalendar(StandInDraft(w, f), StandInPeople(count), TEAM, LimitOf(fill), fill);
      quiet := QuietOf(w.Days(), calendar);
      assert quiet == AskPlanner(w, f, count, LimitOf(fill), fill) by { AskedIs(w, f, count, LimitOf(fill), fill); }
      if fill == EveryDay && calendar.exhausted {
        gaveUp := gaveUp[f := (if f in gaveUp then gaveUp[f] else 0) + 1];
      }
      feasible := feasible[key := quiet];
    }
  }

  lemma {:induction false} AskedIs(w: Window, f: Flow, count: nat, limit: nat, fill: Fill)
    requires ValidFlow(f)
    ensures ValidDraft(StandInDraft(w, f))
    ensures AskPlanner(w, f, count, limit, fill) == QuietOf(w.Days(), BuildCalendar(StandInDraft(w, f), StandInPeople(count), TEAM, limit, fill))
  {
    StandInIsValid(w, f);
  }
}
