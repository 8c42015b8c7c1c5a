/** What the planner answers where its starts are few. */
module SmallBoards {
  // src/lib/campaign-planner.ts and Window.canSchedule of src/lib/campaign-fit.ts: on a board of few
  // enough starts no search runs out, so the verdicts are exact.

  import opened Days
  import opened Placement
  import opened Search
  import opened Fewest
  import opened Starts
  import opened Room
  import opened Calendar
  import opened StandIns

  /** With few enough starts for the limit, the planner fills every day exactly when some arrangement does. */
  lemma {:induction false} SmallBoardsFillExactly(w: Window, flows: Flows, limit: nat)
    requires ValidFlows(flows) && |w.Days()| >= 1 && flows != [] && !Startless(w, flows)
    requires Calls(BoardOf(w, flows), 0) <= limit
    ensures FoVerdict(w, flows, limit, EveryDay) == Some(0) <==> exists plan :: Arrangement(w, flows, plan) && Covers(w, plan)
  {
    hide ValidFlow, ValidBoard, StartsOf, Arrangement, Covers, WorkingDays, Idle, Explore, FindFewest, Calls, Touches;
    BoardIsValid(w, flows);
    var b := BoardOf(w, flows);
    SmallBoardsSettle(b, EVERY, limit, 0, -1, Fresh(b, 0, false));
    SearchEveryExact(w, flows, limit, 0, false);
    PlanFoExact(w, flows, limit, EveryDay, 0, false);
    var r := PlanFo(w, flows, limit, EveryDay, 0, false);
    if r.result.Planned? {
      var plan :| Arranged(w, flows, r.result.dates, plan) && Covers(w, plan);
      IdleIsQuiet(w, plan);
    }
    if plan :| Arrangement(w, flows, plan) && Covers(w, plan) {
      OversizedIsRight(w, flows, EveryDay, plan);
    }
  }

  /** With few enough starts for half the limit, it plans with days left empty exactly when there is an arrangement. */
  lemma {:induction false} SmallBoardsFitExactly(w: Window, flows: Flows, limit: nat)
    requires ValidFlows(flows) && |w.Days()| >= 1 && flows != [] && !Startless(w, flows)
    requires AllStarts(BoardOf(w, flows), 0) + Calls(BoardOf(w, flows), 0) <= limit / 2
    ensures FoVerdict(w, flows, limit, FewestEmpty).Some? <==> exists plan :: Arrangement(w, flows, plan)
  {
    hide ValidFlow, ValidBoard, StartsOf, Arrangement, WorkingDays, Idle, Explore, FindFewest, Calls, AllStarts, Touches, Legal;
    BoardIsValid(w, flows);
    var b := BoardOf(w, flows);
    SmallBoardsArePlanned(b, limit);
    if plan :| Legal(b, plan) {
      BoardAllows(w, flows, plan);
    }
    if plan :| Arrangement(w, flows, plan) {
      BoardAllows(w, flows, plan);
      OversizedIsRight(w, flows, FewestEmpty, plan);
    }
    if FoVerdict(w, flows, limit, FewestEmpty).Some? {
      PlanFoExact(w, flows, limit, FewestEmpty, 0, false);
    }
  }

  /** Few enough starts for the fewest-days search to settle under this limit. */
  predicate FewStarts(w: Window, flows: Flows, limit: nat)
    requires ValidFlows(flows)
  {
    var b := BoardOf(w, flows);
    && AllStarts(b, 0) + Calls(b, 0) <= limit / 2 && Calls(b, 0) <= 500
    && |w.Days()| * Calls(b, 0) <= limit && |w.Days()| * Calls(b, 0) <= REFINE_LIMIT
  }

  /**
   * Where starts are few, the planner answers the least number of days any arrangement leaves empty,
   * and answers exactly when there is an arrangement, whether or not it looks for none empty first.
   */
  lemma {:induction false} SmallVerdictsAreLeast(w: Window, flows: Flows, limit: nat, fill: Fill)
    requires ValidFlows(flows) && |w.Days()| >= 1 && flows != [] && fill != EveryDay && FewStarts(w, flows, limit)
    ensures var v := FoVerdict(w, flows, limit, fill);
      && (v.Some? <==> exists plan :: Arrangement(w, flows, plan))
      && (v.Some? ==> exists plan :: Arrangement(w, flows, plan) && |QuietDays(w.Days(), plan)| == v.value)
      && (v.Some? ==> forall plan :: Arrangement(w, flows, plan) ==> v.value <= |QuietDays(w.Days(), plan)|)
  {
    hide ValidFlow, ValidBoard, StartsOf, Arrangement, WorkingDays, Idle, Explore, FindFewest, FoVerdict, Calls, AllStarts, Touches, Legal, QuietDays, PlanFo, AtLeast;
    VerdictIsArrangement(w, flows, limit, fill);
    if Startless(w, flows) {
      NobodyStarts(w, flows, limit, fill);
    } else {
      BoardIsValid(w, flows);
      SmallBoardsAreLeast(BoardOf(w, flows), limit);
      forall plan
        ensures Legal(BoardOf(w, flows), plan) <==> Arrangement(w, flows, plan)
      {
        BoardAllows(w, flows, plan);
      }
      LeastIsAnswered(w, flows, limit, fill);
    }
  }

  lemma {:induction false} NobodyStarts(w: Window, flows: Flows, limit: nat, fill: Fill)
    requires ValidFlows(flows) && |w.Days()| >= 1 && Startless(w, flows)
    ensures FoVerdict(w, flows, limit, fill).None? && forall plan :: !Arrangement(w, flows, plan)
  {
    hide ValidFlow, StartsOf, Arrangement, WorkingDays, SearchEvery, FindFewest, Touches;
    forall plan | Arrangement(w, flows, plan)
      ensures false
    {
      StartlessIsRight(w, flows, plan);
    }
  }

  lemma {:induction false} LeastIsAnswered(w: Window, flows: Flows, limit: nat, fill: Fill)
    requires ValidFlows(flows) && |w.Days()| >= 1 && flows != [] && fill != EveryDay && !Startless(w, flows) && ValidBoard(BoardOf(w, flows))
    requires var best := FindFewest(BoardOf(w, flows), limit).best;
      && (best.Some? <==> exists plan :: Arrangement(w, flows, plan))
      && (best.Some? ==> Realized(BoardOf(w, flows), best.value) && AtLeast(BoardOf(w, flows), best.value.quiet))
    requires forall plan :: Legal(BoardOf(w, flows), plan) <==> Arrangement(w, flows, plan)
    ensures var v := FoVerdict(w, flows, limit, fill);
      && ((exists plan :: Arrangement(w, flows, plan)) ==> v.Some?)
      && (v.Some? ==> forall plan :: Arrangement(w, flows, plan) ==> v.value <= |QuietDays(w.Days(), plan)|)
  {
    hide ValidFlow, ValidBoard, StartsOf, Arrangement, WorkingDays, Idle, SearchEvery, FindFewest, Touches, Legal, QuietDays;
    var b := BoardOf(w, flows);
    if plan :| Arrangement(w, flows, plan) {
      OversizedIsRight(w, flows, fill, plan);
    }
    if Asks(w, flows, fill) && SearchEvery(b, limit, 0, false).0 {
      SearchEveryExact(w, flows, limit, 0, false);
      var plan :| Arranged(w, flows, SearchEvery(b, limit, 0, false).1.dates, plan) && Covers(w, plan);
      IdleIsQuiet(w, plan);
    } else {
      var best := FindFewest(b, limit).best;
      if best.Some? {
        var plan :| Legal(b, plan) && best.value.plan == DatesOf(plan) && best.value.quiet == |QuietDays(b.days, plan)|;
        IdleIsQuiet(w, plan);
      }
    }
  }
}
