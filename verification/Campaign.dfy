/** A campaign's calendar: every FO planned in turn, buildCampaignCalendar of src/lib/campaign-planner.ts. */
module Campaign {
  import opened Days
  import opened Sorting
  import opened Placement
  import opened Starts
  import opened Room
  import opened Queues
  import opened Calendar
  import Fewest
  import Search

  datatype PlannedBatch = PlannedBatch(fo: Id, flow: Id, people: seq<Person>, dates: seq<Day>)

  datatype Issue = NoWorkingDays | NoAudience | StrayOwner(person: Person) | FoIssue(fo: Id, why: Problem)

  datatype CampaignCalendar = CampaignCalendar(batches: seq<PlannedBatch>, issues: seq<Issue>, valid: bool, exhausted: bool)

  function WindowOf(d: Draft): Window {
    Window(d.start, d.end)
  }

  /** The outreach of each of an FO's batches. */
  function FlowsOf(d: Draft, batches: seq<Batch>): (flows: Flows)
    requires ValidDraft(d)
    ensures |flows| == |batches| && ValidFlows(flows)
  {
    StepsAlwaysValid(d);
    seq(|batches|, i requires 0 <= i < |batches| => Steps(d, batches[i].flow))
  }

  lemma {:induction false} StepsAlwaysValid(d: Draft)
    requires ValidDraft(d)
    ensures forall id :: ValidFlow(Steps(d, id))
  {
    forall id {
      StepsAreValid(d, id);
    }
  }

  /** An FO's batches with the dates found for them. */
  function Stamp(fo: Id, batches: seq<Batch>, dates: seq<seq<Day>>): (stamped: seq<PlannedBatch>)
    ensures |stamped| == |batches|
  {
    seq(|batches|, i requires 0 <= i < |batches| =>
      PlannedBatch(fo, batches[i].flow, batches[i].people, if i < |dates| then dates[i] else []))
  }

  /** The plan so far: what the loop over FOs carries from one to the next. */
  datatype Progress = Progress(batches: seq<PlannedBatch>, issues: seq<Issue>, nodes: nat, exhausted: bool)

  function BatchesFor(d: Draft, roster: Roster, i: nat): seq<Batch>
    requires i < |d.fos| == |roster|
  {
    Batches(d, roster[i], d.fos[i].batchSize)
  }

  function PlanNext(d: Draft, roster: Roster, i: nat, limit: nat, fill: Fill, so: Progress): Progress
    requires ValidDraft(d) && i < |d.fos| == |roster| && |WindowOf(d).Days()| >= 1
  {
    var batches := BatchesFor(d, roster, i);
    var r := PlanFo(WindowOf(d), FlowsOf(d, batches), limit, fill, so.nodes, so.exhausted);
    match r.result
    case Planned(dates, _) => Progress(so.batches + Stamp(d.fos[i].id, batches, dates), so.issues, r.nodes, r.exhausted)
    case Refused(why) => Progress(so.batches, so.issues + [FoIssue(d.fos[i].id, why)], r.nodes, r.exhausted)
  }

  function PlanUpTo(d: Draft, roster: Roster, n: nat, limit: nat, fill: Fill): Progress
    requires ValidDraft(d) && n <= |d.fos| == |roster| && |WindowOf(d).Days()| >= 1
  {
    if n == 0 then Progress([], [], 0, false)
    else PlanNext(d, roster, n - 1, limit, fill, PlanUpTo(d, roster, n - 1, limit, fill))
  }

  function Size(batches: seq<PlannedBatch>): nat {
    if batches == [] then 0 else Size(batches[..|batches| - 1]) + |batches[|batches| - 1].people|
  }

  function Strays(people: seq<Person>): (issues: seq<Issue>)
    ensures |issues| == |people|
  {
    seq(|people|, i requires 0 <= i < |people| => StrayOwner(people[i]))
  }

  function BuildCalendar(d: Draft, people: seq<Person>, fos: seq<Fo>, limit: nat, fill: Fill): CampaignCalendar
    requires ValidDraft(d)
  {
    if WindowOf(d).Days() == [] then CampaignCalendar([], [NoWorkingDays], false, false)
    else if people == [] then CampaignCalendar([], [NoAudience], false, false)
    else
      var q := QueuesOf(d, people, fos);
      if q.stray != [] then CampaignCalendar([], Strays(q.stray), false, false)
      else
        var r := PlanUpTo(d, q.roster, |d.fos|, limit, fill);
        CampaignCalendar(r.batches, r.issues, r.issues == [] && Size(r.batches) == |people|, r.exhausted)
  }

  /** buildCampaignCalendar: one pass over the FOs, appending batches or issues. */
  method BuildCampaignCalendar(d: Draft, people: seq<Person>, fos: seq<Fo>, limit: nat, fill: Fill) returns (c: CampaignCalendar)
    requires ValidDraft(d)
    ensures c == BuildCalendar(d, people, fos, limit, fill)
  {
    hide ValidDraft, ValidFlow, ValidFlows, PlanFo, WorkingDays, QueuesOf, Batches, FlowsOf, Stamp, Size;
    var days := CalendarDays(d.start, d.end);
    if days == [] {
      return CampaignCalendar([], [NoWorkingDays], false, false);
    }
    if people == [] {
      return CampaignCalendar([], [NoAudience], false, false);
    }
    var q := CampaignQueues(d, people, fos);
    if q.stray != [] {
      return CampaignCalendar([], Strays(q.stray), false, false);
    }
    var batches, issues, nodes: nat, exhausted := [], [], 0, false;
    for i := 0 to |d.fos|
      invariant Progress(batches, issues, nodes, exhausted) == PlanUpTo(d, q.roster, i, limit, fill)
    {
      var mine := CampaignBatches(d, q.roster[i], d.fos[i].batchSize);
      var r := PlanOne(WindowOf(d), FlowsOf(d, mine), limit, fill, nodes, exhausted);
      match r.result {
        case Planned(dates, _) => batches := batches + Stamp(d.fos[i].id, mine, dates);
        case Refused(why) => issues := issues + [FoIssue(d.fos[i].id, why)];
      }
      nodes, exhausted := r.nodes, r.exhausted;
    }
    return CampaignCalendar(batches, issues, issues == [] && Size(batches) == |people|, exhausted);
  }

  // ---------------------------------------------------------------- what a valid calendar guarantees

  /** FO `i`'s part of the calendar. */
  function Mine(batches: seq<PlannedBatch>, fo: Id): seq<PlannedBatch> {
    if batches == [] then []
    else Mine(batches[..|batches| - 1], fo) + (if batches[|batches| - 1].fo == fo then [batches[|batches| - 1]] else [])
  }

  lemma {:induction false} MineOfSum(a: seq<PlannedBatch>, b: seq<PlannedBatch>, fo: Id)
    ensures Mine(a + b, fo) == Mine(a, fo) + Mine(b, fo)
  {
    if b == [] {
      assert a + b == a;
    } else {
      assert (a + b)[..|a + b| - 1] == a + b[..|b| - 1];
      MineOfSum(a, b[..|b| - 1], fo);
    }
  }

  lemma {:induction false} MineOfOne(batches: seq<PlannedBatch>, owner: Id, fo: Id)
    requires forall i :: 0 <= i < |batches| ==> batches[i].fo == owner
    ensures Mine(batches, fo) == if owner == fo then batches else []
  {
    if batches != [] {
      MineOfOne(batches[..|batches| - 1], owner, fo);
    }
  }

  /** FO `i` is served: their batches are their queue cut at their pace, on an arrangement's dates. */
  ghost predicate Served(d: Draft, roster: Roster, i: nat, fill: Fill, mine: seq<PlannedBatch>)
    requires ValidDraft(d) && i < |d.fos| == |roster|
  {
    exists plan :: ServedBy(d, roster, i, fill, mine, plan)
  }

  ghost predicate ServedBy(d: Draft, roster: Roster, i: nat, fill: Fill, mine: seq<PlannedBatch>, plan: seq<Start>)
    requires ValidDraft(d) && i < |d.fos| == |roster|
  {
    && BatchesFor(d, roster, i) != []
    && Arrangement(WindowOf(d), FlowsOf(d, BatchesFor(d, roster, i)), plan)
    && (fill == EveryDay ==> Covers(WindowOf(d), plan))
    && mine == Stamp(d.fos[i].id, BatchesFor(d, roster, i), DatesOf(plan))
  }

  /** FO `i` could be served: they have people, and some arrangement is one the fill accepts. */
  ghost predicate Servable(d: Draft, roster: Roster, i: nat, fill: Fill)
    requires ValidDraft(d) && i < |d.fos| == |roster|
  {
    && BatchesFor(d, roster, i) != []
    && exists plan :: Arrangement(WindowOf(d), FlowsOf(d, BatchesFor(d, roster, i)), plan) && (fill == EveryDay ==> Covers(WindowOf(d), plan))
  }

  /** The loop's invariant: the FOs done so far are served, or an issue says who is not. */
  ghost predicate OnTrack(d: Draft, roster: Roster, n: nat, fill: Fill, so: Progress)
    requires ValidDraft(d) && n <= |d.fos| == |roster|
  {
    && (forall b :: b in so.batches ==> exists i :: 0 <= i < n && d.fos[i].id == b.fo)
    && (so.issues == [] ==> forall i :: 0 <= i < n ==> Served(d, roster, i, fill, Mine(so.batches, d.fos[i].id)))
    && (so.issues != [] && !so.exhausted ==> exists i :: 0 <= i < n && !Servable(d, roster, i, fill))
  }

  lemma {:induction false} NextStep(d: Draft, roster: Roster, i: nat, limit: nat, fill: Fill, nodes: nat, exhausted: bool)
    requires ValidDraft(d) && i < |d.fos| == |roster| && |WindowOf(d).Days()| >= 1
    ensures var batches := BatchesFor(d, roster, i);
      var r := PlanFo(WindowOf(d), FlowsOf(d, batches), limit, fill, nodes, exhausted);
      && (exhausted ==> r.exhausted)
      && (r.result.Planned? ==> Served(d, roster, i, fill, Stamp(d.fos[i].id, batches, r.result.dates)))
      && (r.result.Refused? && !r.exhausted ==> !Servable(d, roster, i, fill))
  {
    hide ValidDraft, ValidFlow, ValidFlows, PlanFo, WorkingDays, Arrangement, Covers, Batches, FlowsOf;
    var batches := BatchesFor(d, roster, i);
    var flows := FlowsOf(d, batches);
    var r := PlanFo(WindowOf(d), flows, limit, fill, nodes, exhausted);
    PlanFoExact(WindowOf(d), flows, limit, fill, nodes, exhausted);
    FlagStays(WindowOf(d), flows, limit, fill, nodes, exhausted);
    if r.result.Planned? {
      var plan :| Arranged(WindowOf(d), flows, r.result.dates, plan) && (fill == EveryDay ==> Covers(WindowOf(d), plan));
      assert ServedBy(d, roster, i, fill, Stamp(d.fos[i].id, batches, r.result.dates), plan);
    }
  }

  /** The exhausted flag, once up, stays up; an FO without people is refused. */
  lemma {:induction false} FlagStays(w: Window, flows: Flows, limit: nat, fill: Fill, nodes: nat, exhausted: bool)
    requires ValidFlows(flows) && |w.Days()| >= 1
    ensures var r := PlanFo(w, flows, limit, fill, nodes, exhausted);
      && (exhausted ==> r.exhausted)
      && (flows == [] ==> r.result.Refused?)
  {
    hide ValidFlow, Fewest.FindFewest, StartsOf, Touches, WorkingDays, Startless, Oversized;
    if flows != [] && !Oversized(w, flows, fill) && !Startless(w, flows) {
      SearchKeepsFlag(w, flows, limit, nodes, exhausted);
    }
  }

  lemma {:induction false} SearchKeepsFlag(w: Window, flows: Flows, limit: nat, nodes: nat, exhausted: bool)
    requires ValidFlows(flows) && |w.Days()| >= 1 && flows != [] && !Startless(w, flows)
    ensures Placement.ValidBoard(BoardOf(w, flows))
    ensures exhausted ==> SearchEvery(BoardOf(w, flows), limit, nodes, exhausted).1.out
  {
    hide Placement.ValidBoard, ValidFlow, StartsOf, WorkingDays, Search.Explore;
    BoardIsValid(w, flows);
    Search.ExploreExact(BoardOf(w, flows), EVERY, limit, 0, -1, Fresh(BoardOf(w, flows), nodes, exhausted));
  }

  /** An FO planned: its stamped batches become its part, and nobody else's part changes. */
  lemma {:induction false} AppendingMine(d: Draft, i: nat, so: seq<PlannedBatch>, stamped: seq<PlannedBatch>)
    requires ValidDraft(d) && i < |d.fos|
    requires forall b :: b in so ==> exists j :: 0 <= j < i && d.fos[j].id == b.fo
    requires forall x :: 0 <= x < |stamped| ==> stamped[x].fo == d.fos[i].id
    ensures forall j :: 0 <= j <= i ==> Mine(so + stamped, d.fos[j].id) == if j == i then stamped else Mine(so, d.fos[j].id)
  {
    hide ValidDraft, Mine;
    NotYetMine(d, i, so);
    forall j | 0 <= j <= i
      ensures Mine(so + stamped, d.fos[j].id) == if j == i then stamped else Mine(so, d.fos[j].id)
    {
      MineOfSum(so, stamped, d.fos[j].id);
      MineOfOne(stamped, d.fos[i].id, d.fos[j].id);
      DistinctFos(d, j, i);
    }
  }

  lemma {:induction false} StaysOnTrack(d: Draft, roster: Roster, n: nat, limit: nat, fill: Fill)
    requires ValidDraft(d) && n <= |d.fos| == |roster| && |WindowOf(d).Days()| >= 1
    ensures OnTrack(d, roster, n, fill, PlanUpTo(d, roster, n, limit, fill))
  {
    hide ValidDraft, PlanFo, WorkingDays, BatchesFor, FlowsOf, Served, Servable, Mine;
    if n > 0 {
      var i := n - 1;
      StaysOnTrack(d, roster, i, limit, fill);
      var so := PlanUpTo(d, roster, i, limit, fill);
      NextStep(d, roster, i, limit, fill, so.nodes, so.exhausted);
      var batches := BatchesFor(d, roster, i);
      var r := PlanFo(WindowOf(d), FlowsOf(d, batches), limit, fill, so.nodes, so.exhausted);
      if r.result.Planned? {
        AppendingMine(d, i, so.batches, Stamp(d.fos[i].id, batches, r.result.dates));
        TrackPlanned(d, roster, i, fill, so, Stamp(d.fos[i].id, batches, r.result.dates), r.nodes, r.exhausted);
      }
    }
  }

  lemma {:induction false} TrackPlanned(d: Draft, roster: Roster, i: nat, fill: Fill, so: Progress, stamped: seq<PlannedBatch>, nodes: nat, exhausted: bool)
    requires ValidDraft(d) && i < |d.fos| == |roster| && OnTrack(d, roster, i, fill, so)
    requires forall x :: 0 <= x < |stamped| ==> stamped[x].fo == d.fos[i].id
    requires Served(d, roster, i, fill, stamped) && (so.exhausted ==> exhausted)
    requires forall j :: 0 <= j <= i ==> Mine(so.batches + stamped, d.fos[j].id) == if j == i then stamped else Mine(so.batches, d.fos[j].id)
    ensures OnTrack(d, roster, i + 1, fill, Progress(so.batches + stamped, so.issues, nodes, exhausted))
  {
    hide ValidDraft, Served, Servable, Mine;
    forall b | b in so.batches + stamped
      ensures exists j :: 0 <= j < i + 1 && d.fos[j].id == b.fo
    {
      if b in so.batches {
        var j :| 0 <= j < i && d.fos[j].id == b.fo;
      } else {
        assert d.fos[i].id == b.fo;
      }
    }
  }

  lemma {:induction false} DistinctFos(d: Draft, j: nat, i: nat)
    requires ValidDraft(d) && j <= i < |d.fos|
    ensures j < i ==> d.fos[j].id != d.fos[i].id
  {
    hide ValidFlow;
  }

  lemma {:induction false} NotYetMine(d: Draft, i: nat, batches: seq<PlannedBatch>)
    requires ValidDraft(d) && i < |d.fos|
    requires forall b :: b in batches ==> exists j :: 0 <= j < i && d.fos[j].id == b.fo
    ensures Mine(batches, d.fos[i].id) == []
  {
    hide ValidDraft;
    forall b | b in batches
      ensures b.fo != d.fos[i].id
    {
      var j :| 0 <= j < i && d.fos[j].id == b.fo;
      DistinctFos(d, j, i);
    }
    NoneMine(batches, d.fos[i].id);
  }

  lemma {:induction false} NoneMine(batches: seq<PlannedBatch>, fo: Id)
    requires forall b :: b in batches ==> b.fo != fo
    ensures Mine(batches, fo) == []
  {
    if batches != [] {
      NoneMine(batches[..|batches| - 1], fo);
    }
  }

  // ---------------------------------------------------------------- everyone is planned once

  function Planned(batches: seq<PlannedBatch>): seq<Person> {
    if batches == [] then [] else Planned(batches[..|batches| - 1]) + batches[|batches| - 1].people
  }

  lemma {:induction false} PlannedOfSum(a: seq<PlannedBatch>, b: seq<PlannedBatch>)
    ensures Planned(a + b) == Planned(a) + Planned(b)
  {
    if b == [] {
      assert a + b == a;
    } else {
      assert (a + b)[..|a + b| - 1] == a + b[..|b| - 1];
      PlannedOfSum(a, b[..|b| - 1]);
    }
  }

  lemma {:induction false} PlannedOfStamp(fo: Id, batches: seq<Batch>, dates: seq<seq<Day>>)
    ensures Planned(Stamp(fo, batches, dates)) == People(batches)
  {
    if batches != [] {
      var n := |batches| - 1;
      PlannedOfStamp(fo, batches[..n], dates);
      assert Stamp(fo, batches, dates)[..n] == Stamp(fo, batches[..n], dates);
    }
  }

  lemma {:induction false} SizeIsPeople(batches: seq<PlannedBatch>)
    ensures Size(batches) == |Planned(batches)|
  {
    if batches != [] {
      SizeIsPeople(batches[..|batches| - 1]);
    }
  }

  /** While no FO is refused, the plan holds the queues, whole and in order. */
  lemma {:induction false} PlanHoldsQueues(d: Draft, roster: Roster, n: nat, limit: nat, fill: Fill)
    requires ValidDraft(d) && n <= |d.fos| == |roster| && |WindowOf(d).Days()| >= 1
    requires PlanUpTo(d, roster, n, limit, fill).issues == []
    ensures Planned(PlanUpTo(d, roster, n, limit, fill).batches) == Everyone(roster[..n])
  {
    hide ValidDraft, PlanFo, WorkingDays, FlowsOf, Batches;
    if n > 0 {
      var i := n - 1;
      PlanHoldsQueues(d, roster, i, limit, fill);
      assert roster[..n][..i] == roster[..i];
      var so := PlanUpTo(d, roster, i, limit, fill);
      var batches := BatchesFor(d, roster, i);
      var r := PlanFo(WindowOf(d), FlowsOf(d, batches), limit, fill, so.nodes, so.exhausted);
      PlannedOfSum(so.batches, Stamp(d.fos[i].id, batches, r.result.dates));
      PlannedOfStamp(d.fos[i].id, batches, r.result.dates);
      BatchesCutTheQueue(d, roster[i], d.fos[i].batchSize);
    }
  }

  /** Everything a campaign must have for a calendar to exist. */
  ghost predicate Plannable(d: Draft, people: seq<Person>, fos: seq<Fo>, fill: Fill)
    requires ValidDraft(d)
  {
    && WindowOf(d).Days() != [] && people != []
    && QueuesOf(d, people, fos).stray == []
    && forall i :: 0 <= i < |d.fos| ==> Servable(d, QueuesOf(d, people, fos).roster, i, fill)
  }

  /**
   * A valid calendar keeps every rule: each FO is served by an arrangement of their own queue, and
   * everyone is in exactly one batch. Its own people check never fails once no issue was raised.
   */
  lemma {:induction false} ValidCalendarIsSound(d: Draft, people: seq<Person>, fos: seq<Fo>, limit: nat, fill: Fill)
    requires ValidDraft(d)
    ensures var c := BuildCalendar(d, people, fos, limit, fill); var q := QueuesOf(d, people, fos);
      && (c.valid <==> c.issues == [])
      && (c.valid ==>
          && multiset(Planned(c.batches)) == multiset(people)
          && forall i :: 0 <= i < |d.fos| ==> Served(d, q.roster, i, fill, Mine(c.batches, d.fos[i].id)))
  {
    hide ValidDraft, PlanFo, PlanUpTo, WorkingDays, Served, Servable, QueuesOf;
    var q := QueuesOf(d, people, fos);
    if WindowOf(d).Days() != [] && people != [] && q.stray == [] {
      StaysOnTrack(d, q.roster, |d.fos|, limit, fill);
      QueuesKeepEveryone(d, people, fos);
      var r := PlanUpTo(d, q.roster, |d.fos|, limit, fill);
      if r.issues == [] {
        PlanHoldsQueues(d, q.roster, |d.fos|, limit, fill);
        assert q.roster[..|d.fos|] == q.roster;
        SizeIsPeople(r.batches);
        assert |multiset(Planned(r.batches))| == |multiset(people)|;
      }
    }
  }

  /**
   * The planner is exact: unless its search was exhausted, the calendar is valid exactly when the
   * campaign can be planned at all.
   */
  lemma {:induction false} CalendarIsExact(d: Draft, people: seq<Person>, fos: seq<Fo>, limit: nat, fill: Fill)
    requires ValidDraft(d)
    ensures var c := BuildCalendar(d, people, fos, limit, fill);
      !c.exhausted ==> (c.valid <==> Plannable(d, people, fos, fill))
  {
    hide ValidDraft, PlanFo, PlanUpTo, WorkingDays, Servable, QueuesOf;
    ValidCalendarIsSound(d, people, fos, limit, fill);
    var q := QueuesOf(d, people, fos);
    if WindowOf(d).Days() != [] && people != [] && q.stray == [] {
      StaysOnTrack(d, q.roster, |d.fos|, limit, fill);
      forall i | 0 <= i < |d.fos|
        ensures Served(d, q.roster, i, fill, Mine(PlanUpTo(d, q.roster, |d.fos|, limit, fill).batches, d.fos[i].id)) ==> Servable(d, q.roster, i, fill)
      {
        ServedIsServable(d, q.roster, i, fill, Mine(PlanUpTo(d, q.roster, |d.fos|, limit, fill).batches, d.fos[i].id));
      }
    }
  }

  lemma {:induction false} ServedIsServable(d: Draft, roster: Roster, i: nat, fill: Fill, mine: seq<PlannedBatch>)
    requires ValidDraft(d) && i < |d.fos| == |roster|
    ensures Served(d, roster, i, fill, mine) ==> Servable(d, roster, i, fill)
  {
  }

  /** A served FO's batches start in queue order. */
  lemma {:induction false} BatchesStartInOrder(d: Draft, roster: Roster, i: nat, fill: Fill, mine: seq<PlannedBatch>, x: nat, y: nat)
    requires ValidDraft(d) && i < |d.fos| == |roster| && Served(d, roster, i, fill, mine) && x <= y < |mine|
    ensures mine[x].dates != [] && mine[y].dates != [] && mine[x].dates[0] <= mine[y].dates[0]
  {
    hide ValidDraft, ValidFlow, WorkingDays, BatchesFor, FinishesBy, Apart, NeverThree, Ascending, Journey;
    var plan: seq<Start> :| ServedBy(d, roster, i, fill, mine, plan);
    var w, flows := WindowOf(d), FlowsOf(d, BatchesFor(d, roster, i));
    StartIsValid(w, flows[x], plan[x]);
    StartIsValid(w, flows[y], plan[y]);
    DaysInOrder(w, plan[x].index, plan[y].index);
  }

  lemma {:induction false} DaysInOrder(w: Window, x: nat, y: nat)
    requires x <= y < |w.Days()|
    ensures w.Days()[x] <= w.Days()[y]
  {
    WorkingDaysExact(w.start, w.end);
  }

  /** In a queue cut into batches, nobody in an earlier batch has a lower priority than someone in a later one. */
  lemma {:induction false} PriorityFollowsBatches(d: Draft, queue: seq<Person>, size: nat, x: nat, y: nat, p: Person, q: Person)
    requires SortedBy(QueueOrder(d), queue)
    requires x < y < |Batches(d, queue, size)| && p in Batches(d, queue, size)[x].people && q in Batches(d, queue, size)[y].people
    ensures p.priority <= q.priority
  {
    hide Batches;
    BatchesCutTheQueue(d, queue, size);
    BatchOrder(Batches(d, queue, size), x, y, p, q);
    var a, b :| 0 <= a < b < |queue| && queue[a] == p && queue[b] == q;
    assert QueueOrder(d)(queue[a], queue[b]);
  }

  /** Within an FO a person of strictly higher priority never starts after one of lower priority. */
  lemma {:induction false} HigherPriorityStartsFirst(d: Draft, people: seq<Person>, fos: seq<Fo>, limit: nat, fill: Fill, i: nat, x: nat, y: nat, p: Person, q: Person)
    requires ValidDraft(d) && BuildCalendar(d, people, fos, limit, fill).valid && i < |d.fos|
    requires var mine := Mine(BuildCalendar(d, people, fos, limit, fill).batches, d.fos[i].id);
      x < |mine| && y < |mine| && p in mine[x].people && q in mine[y].people
    requires p.priority < q.priority
    ensures var mine := Mine(BuildCalendar(d, people, fos, limit, fill).batches, d.fos[i].id);
      mine[x].dates != [] && mine[y].dates != [] && mine[x].dates[0] <= mine[y].dates[0]
  {
    hide ValidDraft, BuildCalendar, WorkingDays, QueuesOf, Mine, Batches, InQueue, Arrangement;
    var roster := QueuesOf(d, people, fos).roster;
    var mine := Mine(BuildCalendar(d, people, fos, limit, fill).batches, d.fos[i].id);
    ValidCalendarIsSound(d, people, fos, limit, fill);
    QueuesAreRightful(d, people, fos);
    var plan: seq<Start> :| ServedBy(d, roster, i, fill, mine, plan);
    if y < x {
      PriorityFollowsBatches(d, roster[i], d.fos[i].batchSize, y, x, q, p);
    } else {
      BatchesStartInOrder(d, roster, i, fill, mine, x, y);
    }
  }
}
