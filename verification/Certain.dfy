/** When the final calendar cannot fail. */
module Certain {
  // Why an FO who was fitted is planned again in the campaign's final calendar: the last failure of
  // fitCampaign, src/lib/campaign-fit.ts, and when it cannot happen.

  import opened Days
  import opened Placement
  import opened Search
  import opened Fewest
  import opened Starts
  import opened Room
  import opened Queues
  import opened Calendar
  import opened Campaign
  import opened StandIns

  /** Fitted with days left empty: the fewest-days search found a plan under the smaller limit. */
  predicate FittedSparsely(w: Window, flows: Flows)
    requires ValidFlows(flows) && |w.Days()| >= 1
  {
    FoVerdict(w, flows, FEWEST_LIMIT, FewestEmpty).Some?
  }

  /** Fitted by filling every day. */
  predicate FittedFully(w: Window, flows: Flows)
    requires ValidFlows(flows) && |w.Days()| >= 1
  {
    FoVerdict(w, flows, SEARCH_LIMIT, EveryDay).Some?
  }

  /** The fill-every search ends, one way or the other, within the limit used while fitting. */
  predicate Settles(w: Window, flows: Flows)
    requires ValidFlows(flows) && |w.Days()| >= 1
  {
    !PlanFo(w, flows, SEARCH_LIMIT, EveryDay, 0, false).exhausted
  }

  /** An FO fitted with days left empty is always planned again, whatever the flag and the calls so far. */
  lemma {:induction false} SparselyIsPlanned(w: Window, flows: Flows, limit: nat, nodes: nat, exhausted: bool)
    requires ValidFlows(flows) && |w.Days()| >= 1 && FittedSparsely(w, flows) && limit >= FEWEST_LIMIT
    ensures PlanFo(w, flows, limit, Best, nodes, exhausted).result.Planned?
  {
    hide ValidFlow, ValidBoard, SearchEvery, FindFewest, StartsOf, Touches, WorkingDays, Idle;
    BoardIsValid(w, flows);
    MoreRoomStillFinds(BoardOf(w, flows), FEWEST_LIMIT, limit);
  }

  /** One fitted by filling every day is too, while the flag is down and the calls so far leave room. */
  lemma {:induction false} FullyIsPlanned(w: Window, flows: Flows, limit: nat, nodes: nat)
    requires ValidFlows(flows) && |w.Days()| >= 1 && FittedFully(w, flows) && nodes + SEARCH_LIMIT <= limit
    ensures PlanFo(w, flows, limit, Best, nodes, false).result.Planned?
  {
    hide ValidFlow, WorkingDays, PlanFo, Idle;
    EverySuccessIsKept(w, flows, SEARCH_LIMIT, limit, nodes);
  }

  /** An FO whose fill-every search settles costs at most that search's calls, and leaves the flag down. */
  lemma {:induction false} SettledStaysDown(w: Window, flows: Flows, limit: nat, nodes: nat)
    requires ValidFlows(flows) && |w.Days()| >= 1 && Settles(w, flows) && nodes + SEARCH_LIMIT <= limit
    requires PlanFo(w, flows, limit, Best, nodes, false).result.Planned?
    ensures var r := PlanFo(w, flows, limit, Best, nodes, false);
      r.nodes <= nodes + SEARCH_LIMIT && !r.exhausted
  {
    hide ValidFlow, ValidBoard, Explore, FindFewest, StartsOf, Touches, WorkingDays;
    if Asks(w, flows, Best) {
      BoardIsValid(w, flows);
      var b := BoardOf(w, flows);
      SearchEverySettles(b, limit, nodes);
    }
  }

  lemma {:induction false} SearchEverySettles(b: Board, limit: nat, nodes: nat)
    requires ValidBoard(b) && nodes + SEARCH_LIMIT <= limit && !SearchEvery(b, SEARCH_LIMIT, 0, false).1.out
    ensures var u := SearchEvery(b, limit, nodes, false).1;
      u.count <= nodes + SEARCH_LIMIT && !u.out
  {
    hide ValidBoard, Explore;
    var t := Fresh(b, 0, false);
    SuccessIsWithinLimit(b, EVERY, SEARCH_LIMIT, 0, -1, t);
    MoreRoomSameWalk(b, EVERY, SEARCH_LIMIT, 0, -1, t, limit, nodes);
    assert Recounted(t, nodes) == Fresh(b, nodes, false);
  }

  // ---------------------------------------------------------------- the whole calendar

  function FlowsFor(d: Draft, roster: Roster, i: nat): (flows: Flows)
    requires ValidDraft(d) && i < |d.fos| == |roster|
    ensures ValidFlows(flows)
  {
    FlowsOf(d, BatchesFor(d, roster, i))
  }

  /**
   * Among the first `n` FOs each was fitted, and one fitted only by filling every day comes after
   * no FO whose fill-every search outran its limit.
   */
  predicate Sure(d: Draft, roster: Roster, n: nat)
    requires ValidDraft(d) && n <= |d.fos| == |roster| && |WindowOf(d).Days()| >= 1
  {
    forall i :: 0 <= i < n ==> SureOne(d, roster, i)
  }

  predicate SureOne(d: Draft, roster: Roster, i: nat)
    requires ValidDraft(d) && i < |d.fos| == |roster| && |WindowOf(d).Days()| >= 1
  {
    FittedSparsely(WindowOf(d), FlowsFor(d, roster, i)) ||
    (FittedFully(WindowOf(d), FlowsFor(d, roster, i)) && AllSettle(d, roster, i))
  }

  predicate AllSettle(d: Draft, roster: Roster, n: nat)
    requires ValidDraft(d) && n <= |d.fos| == |roster| && |WindowOf(d).Days()| >= 1
  {
    forall j :: 0 <= j < n ==> Settles(WindowOf(d), FlowsFor(d, roster, j))
  }

  lemma {:induction false} SureIsPlanned(d: Draft, roster: Roster, n: nat, limit: nat)
    requires ValidDraft(d) && n <= |d.fos| == |roster| && |WindowOf(d).Days()| >= 1
    requires Sure(d, roster, n) && limit >= SEARCH_LIMIT * (n + 1)
    ensures var so := PlanUpTo(d, roster, n, limit, Best);
      so.issues == [] && (AllSettle(d, roster, n) ==> so.nodes <= SEARCH_LIMIT * n && !so.exhausted)
  {
    hide ValidDraft, WorkingDays, PlanFo, BatchesFor, FlowsOf, FittedSparsely, FittedFully, Settles;
    if n > 0 {
      var i := n - 1;
      SureIsPlanned(d, roster, i, limit);
      var w, flows := WindowOf(d), FlowsFor(d, roster, i);
      var so := PlanUpTo(d, roster, i, limit, Best);
      assert SureOne(d, roster, i);
      if FittedSparsely(w, flows) {
        SparselyIsPlanned(w, flows, limit, so.nodes, so.exhausted);
      } else {
        FullyIsPlanned(w, flows, limit, so.nodes);
      }
      if AllSettle(d, roster, n) {
        assert AllSettle(d, roster, i) && Settles(w, flows);
        SettledStaysDown(w, flows, limit, so.nodes);
      }
    }
  }

  /** So the final calendar of FOs who were all fitted is valid. */
  lemma {:induction false} SureIsValid(d: Draft, people: seq<Person>, fos: seq<Fo>)
    requires ValidDraft(d) && |WindowOf(d).Days()| >= 1 && people != [] && QueuesOf(d, people, fos).stray == []
    requires Sure(d, QueuesOf(d, people, fos).roster, |d.fos|)
    ensures BuildCalendar(d, people, fos, SEARCH_LIMIT * (|d.fos| + 5), Best).valid
  {
    hide ValidDraft, WorkingDays, QueuesOf, PlanUpTo, Sure;
    var limit := SEARCH_LIMIT * (|d.fos| + 5);
    SureIsPlanned(d, QueuesOf(d, people, fos).roster, |d.fos|, limit);
    ValidCalendarIsSound(d, people, fos, limit, Best);
  }
}
