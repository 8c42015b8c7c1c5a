/** One FO's part of the calendar, buildCampaignCalendar of src/lib/campaign-planner.ts. */
module Calendar {
  import opened Days
  import opened Placement
  import opened Search
  import opened Fewest
  import opened Planner
  import opened Starts
  import opened Room

  /** 'every': something to send every working day. 'fewest': the fewest empty days. 'best': every day, else the fewest. */
  datatype Fill = EveryDay | FewestEmpty | Best

  datatype Problem = NoPeople | WrongSize | TooLate | NeedsSmallerSearch | DoesNotFit

  /**
   * One FO's answer. `settled` says the empty days were proved fewest: every day is used, or the
   * halving ended with nothing left to try.
   */
  datatype FoPlan = FoPlan(result: Result, nodes: nat, exhausted: bool)

  datatype Result = Planned(dates: seq<seq<Day>>, settled: bool) | Refused(why: Problem)

  /** The checks made before any search. */
  predicate Oversized(w: Window, flows: Flows, fill: Fill) {
    || (fill == EveryDay && Touches(flows) < |w.Days()|)
    || Touches(flows) > |w.Days()| * 2
    || |flows| > |w.Days()|
  }

  predicate Startless(w: Window, flows: Flows)
    requires ValidFlows(flows)
  {
    exists i :: 0 <= i < |flows| && StartsOf(w, flows[i]) == []
  }

  /** Whether the fill-every search is asked at all. */
  predicate Asks(w: Window, flows: Flows, fill: Fill) {
    fill != FewestEmpty && Touches(flows) >= |w.Days()|
  }

  /** The fill-every search from an empty table, its calls and its exhaustion carried over from the FOs before. */
  function Fresh(b: Board, nodes: nat, exhausted: bool): Trail {
    Start0(b, nodes).(out := exhausted)
  }

  const EVERY := Rules(0, false)

  function SearchEvery(b: Board, limit: nat, nodes: nat, exhausted: bool): (r: (bool, Trail))
    requires ValidBoard(b)
  {
    Explore(b, EVERY, limit, 0, -1, Fresh(b, nodes, exhausted))
  }

  function PlanFo(w: Window, flows: Flows, limit: nat, fill: Fill, nodes: nat, exhausted: bool): FoPlan
    requires ValidFlows(flows) && |w.Days()| >= 1
  {
    if flows == [] then FoPlan(Refused(NoPeople), nodes, exhausted)
    else if Oversized(w, flows, fill) then FoPlan(Refused(WrongSize), nodes, exhausted)
    else if Startless(w, flows) then FoPlan(Refused(TooLate), nodes, exhausted)
    else
      BoardIsValid(w, flows);
      var b := BoardOf(w, flows);
      var (ok, u) := SearchEvery(b, limit, nodes, exhausted);
      if Asks(w, flows, fill) && ok then FoPlan(Planned(u.dates, true), u.count, u.out)
      else
        var spentNodes := if Asks(w, flows, fill) then u.count else nodes;
        var out := if Asks(w, flows, fill) then u.out else exhausted;
        if fill == EveryDay then FoPlan(Refused(if out then NeedsSmallerSearch else DoesNotFit), spentNodes, out)
        else
          var r := FindFewest(b, limit);
          if r.best.Some? then FoPlan(Planned(r.best.value.plan, r.settled), spentNodes, out)
          else FoPlan(Refused(if r.spent then NeedsSmallerSearch else DoesNotFit), spentNodes, out || r.spent)
  }

  /** One FO, in place: the search on the shared counter, then the fewest-empty search. */
  method PlanOne(w: Window, flows: Flows, limit: nat, fill: Fill, nodes: nat, exhausted: bool) returns (r: FoPlan)
    requires ValidFlows(flows) && |w.Days()| >= 1
    ensures r == PlanFo(w, flows, limit, fill, nodes, exhausted)
  {
    hide ValidFlow, ValidBoard, Explore, FindFewest, StartsOf, Touches, WorkingDays;
    if flows == [] {
      return FoPlan(Refused(NoPeople), nodes, exhausted);
    }
    if Oversized(w, flows, fill) {
      return FoPlan(Refused(WrongSize), nodes, exhausted);
    }
    if Startless(w, flows) {
      return FoPlan(Refused(TooLate), nodes, exhausted);
    }
    BoardIsValid(w, flows);
    var planner := new FoPlanner(BoardOf(w, flows));
    var spentNodes, out := nodes, exhausted;
    if fill != FewestEmpty && Touches(flows) >= |w.Days()| {
      planner.Resume(nodes, exhausted);
      NothingPlaced(planner.b, planner.State());
      var ok := planner.Walk(EVERY, limit, 0, -1);
      if ok {
        return FoPlan(Planned(planner.dates, true), planner.count, planner.out);
      }
      spentNodes, out := planner.count, planner.out;
    }
    if fill == EveryDay {
      return FoPlan(Refused(if out then NeedsSmallerSearch else DoesNotFit), spentNodes, out);
    }
    var f := planner.FewestEmpty(limit);
    if f.best.Some? {
      return FoPlan(Planned(f.best.value.plan, f.settled), spentNodes, out);
    }
    return FoPlan(Refused(if f.spent then NeedsSmallerSearch else DoesNotFit), spentNodes, out || f.spent);
  }

  /** A failed search leaves the table and the dates as it found them. */
  lemma {:induction false} FailureRestores(b: Board, limit: nat, nodes: nat, exhausted: bool)
    requires ValidBoard(b)
    ensures var (ok, u) := SearchEvery(b, limit, nodes, exhausted);
      !ok ==> u.slots == Clear(b) && Undated(u, 0)
  {
    hide ValidBoard, Explore;
    ExploreExact(b, EVERY, limit, 0, -1, Fresh(b, nodes, exhausted));
  }

  // ---------------------------------------------------------------- one FO's answer is exact

  ghost predicate Covers(w: Window, plan: seq<Start>) {
    QuietDays(w.Days(), plan) == {}
  }

  /** `dates` are the journeys of an arrangement with `quiet` empty days. */
  ghost predicate Arranged(w: Window, flows: Flows, dates: seq<seq<Day>>, plan: seq<Start>)
    requires ValidFlows(flows)
  {
    Arrangement(w, flows, plan) && dates == DatesOf(plan)
  }

  /** An oversized request has no arrangement the fill accepts. */
  lemma {:induction false} OversizedIsRight(w: Window, flows: Flows, fill: Fill, plan: seq<Start>)
    requires ValidFlows(flows) && |w.Days()| >= 1 && flows != [] && Arrangement(w, flows, plan)
    ensures Touches(flows) <= |w.Days()| * 2 && |flows| <= |w.Days()|
    ensures Covers(w, plan) ==> Touches(flows) >= |w.Days()|
  {
    hide Arrangement, ValidFlow, WorkingDays, Touches, QuietDays;
    TouchesFit(w, flows, plan);
    BatchesFit(w, flows, plan);
    SparseLeavesDays(w, flows, plan);
  }

  lemma {:induction false} StartlessIsRight(w: Window, flows: Flows, plan: seq<Start>)
    requires ValidFlows(flows) && Arrangement(w, flows, plan)
    ensures !Startless(w, flows)
  {
    hide ValidFlow, StartsOf;
    HasStarts(w, flows, plan);
  }

  /** The fill-every search: with the exhausted flag down at the end, it succeeds exactly when some arrangement uses every day. */
  lemma {:induction false} SearchEveryExact(w: Window, flows: Flows, limit: nat, nodes: nat, exhausted: bool)
    requires ValidFlows(flows) && |w.Days()| >= 1 && flows != [] && !Startless(w, flows)
    ensures ValidBoard(BoardOf(w, flows))
    ensures var (ok, u) := SearchEvery(BoardOf(w, flows), limit, nodes, exhausted);
      && (ok ==> exists plan :: Arranged(w, flows, u.dates, plan) && Covers(w, plan))
      && (!ok && !u.out ==> forall plan :: Arrangement(w, flows, plan) ==> !Covers(w, plan))
  {
    hide ValidFlow, ValidBoard, Explore, StartsOf, Arrangement, QuietDays, WorkingDays, Legal;
    BoardIsValid(w, flows);
    var b := BoardOf(w, flows);
    var t := Fresh(b, nodes, exhausted);
    ExploreExact(b, EVERY, limit, 0, -1, t);
    var (ok, u) := SearchEvery(b, limit, nodes, exhausted);
    forall plan
      ensures Legal(b, plan) <==> Arrangement(w, flows, plan)
    {
      BoardAllows(w, flows, plan);
    }
    if ok {
      LiftIsLegal(b, 0, t, u);
      var plan :| Legal(b, plan) && u.dates == DatesOf(plan) && Quiet(b, u.slots) == |QuietDays(b.days, plan)|;
      assert Arranged(w, flows, u.dates, plan) && Covers(w, plan);
    } else {
      ArrangementExists(b, 0);
    }
  }

  /** What an FO's answer means. */
  ghost predicate Means(w: Window, flows: Flows, fill: Fill, r: FoPlan)
    requires ValidFlows(flows)
  {
    && (r.result.Planned? ==> exists plan ::
          && Arranged(w, flows, r.result.dates, plan)
          && (fill == EveryDay ==> Covers(w, plan))
          && (fill == Best && !r.exhausted && !Covers(w, plan) ==> forall other :: Arrangement(w, flows, other) ==> !Covers(w, other))
          && (r.result.settled ==> forall other :: Arrangement(w, flows, other) ==> |QuietDays(w.Days(), plan)| <= |QuietDays(w.Days(), other)|))
    && (r.result.Refused? && flows != [] && !r.exhausted ==>
          forall plan :: Arrangement(w, flows, plan) ==> fill == EveryDay && !Covers(w, plan))
  }

  /**
   * The planner never gives up on an FO it could serve, and never keeps a plan that breaks a rule:
   * unless the search was exhausted, a refusal means no arrangement the fill accepts exists; what
   * it keeps is an arrangement, covers every day when that is asked, and is the one with the fewest
   * empty days whenever the halving settled.
   */
  lemma {:induction false} PlanFoExact(w: Window, flows: Flows, limit: nat, fill: Fill, nodes: nat, exhausted: bool)
    requires ValidFlows(flows) && |w.Days()| >= 1
    ensures Means(w, flows, fill, PlanFo(w, flows, limit, fill, nodes, exhausted))
  {
    hide ValidFlow, ValidBoard, Explore, SearchEvery, FindFewest, StartsOf, Touches, WorkingDays, Startless, Arrangement, QuietDays, Legal, Realized, AtLeast;
    if flows != [] {
      if Oversized(w, flows, fill) || Startless(w, flows) {
        forall plan | Arrangement(w, flows, plan)
          ensures fill == EveryDay && !Covers(w, plan)
        {
          OversizedIsRight(w, flows, fill, plan);
          StartlessIsRight(w, flows, plan);
        }
      } else {
        PlanSearched(w, flows, limit, fill, nodes, exhausted);
      }
    }
  }

  lemma {:induction false} PlanSearched(w: Window, flows: Flows, limit: nat, fill: Fill, nodes: nat, exhausted: bool)
    requires ValidFlows(flows) && |w.Days()| >= 1 && flows != []
    requires !Oversized(w, flows, fill) && !Startless(w, flows)
    ensures Means(w, flows, fill, PlanFo(w, flows, limit, fill, nodes, exhausted))
  {
    hide ValidFlow, ValidBoard, Explore, SearchEvery, FindFewest, StartsOf, Touches, WorkingDays, Startless, Arrangement, QuietDays, Legal;
    var b := BoardOf(w, flows);
    SearchEveryExact(w, flows, limit, nodes, exhausted);
    FewestExact(b, limit);
    forall plan
      ensures Legal(b, plan) <==> Arrangement(w, flows, plan)
      ensures Arrangement(w, flows, plan) && Covers(w, plan) ==> Touches(flows) >= |w.Days()|
    {
      BoardAllows(w, flows, plan);
      if Arrangement(w, flows, plan) {
        OversizedIsRight(w, flows, fill, plan);
      }
    }
    var r := PlanFo(w, flows, limit, fill, nodes, exhausted);
    var (ok, u) := SearchEvery(b, limit, nodes, exhausted);
    if Asks(w, flows, fill) && ok {
      var plan :| Arranged(w, flows, u.dates, plan) && Covers(w, plan);
      assert |QuietDays(w.Days(), plan)| == 0;
    } else if fill != EveryDay {
      var f := FindFewest(b, limit);
      if f.best.Some? {
        var plan :| Legal(b, plan) && f.best.value.plan == DatesOf(plan) && f.best.value.quiet == |QuietDays(b.days, plan)|;
        assert Arranged(w, flows, r.result.dates, plan);
      }
    }
  }
}
