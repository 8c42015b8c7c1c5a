/** Asking the planner about an FO's own queue on the user's own outreach: fitEdited of src/lib/campaign-fit.ts. */
module Edited {
  import opened Days
  import opened Sorting
  import opened Starts
  import opened Queues
  import opened Calendar
  import opened Campaign
  import opened Measure
  import opened Paces
  import opened StandIns
  import opened Certain

  lemma {:induction false} DistinctIdsAreOnePerId(queue: seq<Person>)
    requires forall i, j :: 0 <= i < j < |queue| ==> queue[i].id != queue[j].id
    ensures OnePerId(multiset(queue))
  {
    if queue != [] {
      var n := |queue| - 1;
      DistinctIdsAreOnePerId(queue[..n]);
      assert queue == queue[..n] + [queue[n]];
      forall p | p in multiset(queue[..n])
        ensures p.id != queue[n].id
      {
        var i :| 0 <= i < n && queue[..n][i] == p;
      }
    }
  }

  function PinQueue(queue: seq<Person>, fo: Id): map<Id, Id> {
    if queue == [] then map[]
    else
      var before := PinQueue(queue[..|queue| - 1], fo);
      if queue[|queue| - 1].owner.None? then before[queue[|queue| - 1].id := fo] else before
  }

  function Ids(queue: seq<Person>): set<Id> {
    set p | p in queue :: p.id
  }

  /** subDraft: one FO's kept contacts at one pace, each of them that FO's. */
  function SubDraft(d: Draft, fo: Id, kept: seq<Person>, pace: nat): Draft {
    Draft(d.start, d.end, [Quota(fo, pace)], d.flows, map id | id in d.assignments && id in Ids(kept) :: d.assignments[id], PinQueue(kept, fo))
  }

  lemma {:induction false} SubDraftIsValid(d: Draft, fo: Id, kept: seq<Person>, pace: nat)
    requires ValidDraft(d) && pace >= 1
    ensures ValidDraft(SubDraft(d, fo, kept, pace)) && WindowOf(SubDraft(d, fo, kept, pace)) == WindowOf(d)
  {
    hide ValidFlow;
  }

  /** The planner asked about the real queue, as fitEdited does where outreaches mix. */
  function AskQueue(d: Draft, meta: Fo, kept: seq<Person>, pace: nat, fill: Fill): Option<nat>
    requires ValidDraft(d) && pace >= 1
  {
    SubDraftIsValid(d, meta.id, kept, pace);
    QuietOf(WindowOf(d).Days(), BuildCalendar(SubDraft(d, meta.id, kept, pace), kept, [meta], LimitOf(fill), fill))
  }

  /** The search's own verdict on a queue cut at a pace. */
  function QueueVerdict(d: Draft, kept: seq<Person>, pace: nat, fill: Fill): Option<nat>
    requires ValidDraft(d) && |WindowOf(d).Days()| >= 1
  {
    FoVerdict(WindowOf(d), FlowsOf(d, Batches(d, kept, pace)), LimitOf(fill), fill)
  }

  /** What fitEdited answers with for a queue of several runs; one on a single outreach is asked about on stand-ins. */
  function MixedSchedule(d: Draft, meta: Fo, kept: seq<Person>): Schedule
    requires ValidDraft(d)
  {
    (pace: nat, count: nat, fill: Fill) => if pace >= 1 then AskQueue(d, meta, kept, pace, fill) else None
  }

  // ---------------------------------------------------------------- a queue planned again keeps its order

  /** A queue has only one order. */
  lemma {:induction false} QueueHasOneOrder(d: Draft, people: seq<Person>, fos: seq<Fo>, i: nat, queue: seq<Person>)
    requires ValidDraft(d) && i < |d.fos| && OnePerId(multiset(queue)) && SortedBy(QueueOrder(d), queue)
    requires multiset(QueuesOf(d, people, fos).roster[i]) == multiset(queue)
    ensures QueuesOf(d, people, fos).roster[i] == queue
  {
    hide ValidDraft, QueuesOf, FlowPlace, FlowId;
    QueuesAreRightful(d, people, fos);
    forall p, q | p in queue && q in queue && QueueOrder(d)(p, q) && QueueOrder(d)(q, p)
      ensures p == q
    {
      assert p.id == q.id && p in multiset(queue) && q in multiset(queue);
    }
    OneSorting(QueueOrder(d), queue, QueuesOf(d, people, fos).roster[i]);
  }

  /** These contacts follow the same outreaches in both drafts. */
  predicate SameOutreaches(d: Draft, e: Draft, queue: seq<Person>) {
    d.flows == e.flows && forall p :: p in queue ==> FlowId(d, p) == FlowId(e, p)
  }

  lemma {:induction false} StaysSorted(d: Draft, e: Draft, queue: seq<Person>)
    requires SameOutreaches(d, e, queue) && SortedBy(QueueOrder(d), queue)
    ensures SortedBy(QueueOrder(e), queue)
  {
    hide FlowPlace, FlowId, ByName;
    forall i, j | 0 <= i < j < |queue|
      ensures QueueOrder(e)(queue[i], queue[j])
    {
      assert QueueOrder(d)(queue[i], queue[j]);
    }
  }

  lemma {:induction false} SameBatches(d: Draft, e: Draft, queue: seq<Person>, pace: nat)
    requires SameOutreaches(d, e, queue)
    ensures Batches(d, queue, pace) == Batches(e, queue, pace)
  {
    hide FlowId;
    if queue != [] {
      SameBatches(d, e, queue[..|queue| - 1], pace);
    }
  }

  lemma {:induction false} SameFlows(d: Draft, e: Draft, batches: seq<Batch>)
    requires ValidDraft(d) && ValidDraft(e) && d.flows == e.flows
    ensures FlowsOf(d, batches) == FlowsOf(e, batches)
  {
    hide ValidDraft, FlowPlace;
  }

  /** This FO is who these contacts' owners are. */
  predicate OwnedBy(meta: Fo, queue: seq<Person>) {
    forall p :: p in queue && p.owner.Some? ==> meta.member == p.owner
  }

  lemma {:induction false} SameInSubDraft(d: Draft, fo: Id, kept: seq<Person>, pace: nat)
    ensures SameOutreaches(d, SubDraft(d, fo, kept, pace), kept)
  {
    assert forall p :: p in kept ==> p.id in Ids(kept);
  }

  /** Planned on their own, an FO's contacts make the very queue they came from. */
  lemma {:induction false} SubQueueIsKept(d: Draft, meta: Fo, kept: seq<Person>, pace: nat)
    requires ValidDraft(d) && pace >= 1 && OnePerId(multiset(kept)) && SortedBy(QueueOrder(d), kept) && OwnedBy(meta, kept)
    ensures ValidDraft(SubDraft(d, meta.id, kept, pace))
    ensures var q := QueuesOf(SubDraft(d, meta.id, kept, pace), kept, [meta]);
      q.stray == [] && q.roster == [kept]
    ensures SameOutreaches(d, SubDraft(d, meta.id, kept, pace), kept)
  {
    hide ValidDraft, QueuesOf, Everyone, FlowPlace, FlowId, SortedBy, OnePerId, SameOutreaches, OwnedBy, PinQueue;
    SubDraftIsValid(d, meta.id, kept, pace);
    var s := SubDraft(d, meta.id, kept, pace);
    SameInSubDraft(d, meta.id, kept, pace);
    StaysSorted(d, s, kept);
    OwnersFound(s, meta, kept);
    QueuesKeepEveryone(s, kept, [meta]);
    OneQueue(QueuesOf(s, kept, [meta]).roster);
    QueueHasOneOrder(s, kept, [meta], 0, kept);
  }

  lemma {:induction false} OwnersFound(s: Draft, meta: Fo, kept: seq<Person>)
    requires ValidDraft(s) && |s.fos| == 1 && s.fos[0].id == meta.id && OwnedBy(meta, kept)
    ensures QueuesOf(s, kept, [meta]).stray == []
  {
    hide ValidDraft, Sort, DealOwned, DealFree, FlowPlace;
    var ordered := Sort(ByName, kept);
    SortKeeps(ByName, kept);
    forall i | 0 <= i < |ordered| && ordered[i].owner.Some?
      ensures OwnersQueue(s, [meta], ordered[i]).Some?
    {
      assert ordered[i] in multiset(ordered) && ordered[i] in multiset(kept);
    }
    NobodyStray(s, [meta], ordered, seq(|s.fos|, _ => []));
  }

  /** What fitEdited asks of the planner is the search's verdict on the queue itself, cut at that pace. */
  lemma {:induction false} AskQueueIsVerdict(d: Draft, meta: Fo, kept: seq<Person>, pace: nat, fill: Fill)
    requires ValidDraft(d) && pace >= 1 && kept != [] && |WindowOf(d).Days()| >= 1
    requires OnePerId(multiset(kept)) && SortedBy(QueueOrder(d), kept) && OwnedBy(meta, kept)
    ensures AskQueue(d, meta, kept, pace, fill) == QueueVerdict(d, kept, pace, fill)
  {
    hide ValidDraft, QueuesOf, WorkingDays, Batches, FlowsOf, FoVerdict, BuildCalendar, QuietOf, SortedBy, OnePerId, SameOutreaches;
    SubQueueIsKept(d, meta, kept, pace);
    var s := SubDraft(d, meta.id, kept, pace);
    OneFoCalendar(s, kept, [meta], LimitOf(fill), fill);
    SameBatches(d, s, kept, pace);
    SameFlows(d, s, Batches(d, kept, pace));
  }

  // ---------------------------------------------------------------- what the answers are worth

  /**
   * What fitEdited is answered about a queue: the search's verdict on it, or, for filling every day,
   * nothing, as canSchedule gives once an outreach has outrun the search twice.
   */
  ghost predicate Truthful(d: Draft, queue: seq<Person>, schedule: Schedule)
    requires ValidDraft(d) && |WindowOf(d).Days()| >= 1
  {
    forall pace: nat, fill: Fill :: pace >= 1 ==> TruthfulAt(d, queue, schedule, pace, fill)
  }

  ghost predicate TruthfulAt(d: Draft, queue: seq<Person>, schedule: Schedule, pace: nat, fill: Fill)
    requires ValidDraft(d) && |WindowOf(d).Days()| >= 1 && pace >= 1
  {
    var answer := schedule(pace, Count(Runs(d, queue), pace), fill);
    answer == QueueVerdict(d, queue, pace, fill) || (fill == EveryDay && answer == None)
  }

  /** Asking about the real queue is. */
  lemma {:induction false} MixedIsTruthful(d: Draft, meta: Fo, kept: seq<Person>)
    requires ValidDraft(d) && kept != [] && |WindowOf(d).Days()| >= 1
    requires OnePerId(multiset(kept)) && SortedBy(QueueOrder(d), kept) && OwnedBy(meta, kept)
    ensures Truthful(d, kept, MixedSchedule(d, meta, kept))
  {
    hide ValidDraft, WorkingDays, QueueVerdict, AskQueue, OnePerId, SortedBy, OwnedBy;
    forall pace: nat, fill: Fill | pace >= 1
      ensures TruthfulAt(d, kept, MixedSchedule(d, meta, kept), pace, fill)
    {
      AskQueueIsVerdict(d, meta, kept, pace, fill);
    }
  }

  /** The answers canSchedule may give about an outreach: the planner's own, or nothing about filling every day. */
  ghost predicate FromStandIns(w: Window, f: Flow, schedule: Schedule)
    requires ValidFlow(f)
  {
    forall pace: nat, count: nat, fill: Fill ::
      schedule(pace, count, fill) == AskPlanner(w, f, count, LimitOf(fill), fill) || (fill == EveryDay && schedule(pace, count, fill) == None)
  }

  /** And so is asking about stand-ins, for a queue on one outreach. */
  lemma {:induction false} StandInsAreTruthful(d: Draft, queue: seq<Person>, id: Id, schedule: Schedule)
    requires ValidDraft(d) && |WindowOf(d).Days()| >= 1 && forall i :: 0 <= i < |queue| ==> FlowId(d, queue[i]) == id
    requires |d.flows| >= 1 && ValidFlow(Steps(d, id)) && FromStandIns(WindowOf(d), Steps(d, id), schedule)
    ensures Truthful(d, queue, schedule)
  {
    hide ValidDraft, ValidFlow, WorkingDays, AskPlanner, FoVerdict, Steps, FlowId, Batches, FlowsOf, Runs;
    forall pace: nat, fill: Fill | pace >= 1
      ensures TruthfulAt(d, queue, schedule, pace, fill)
    {
      OneOutreachBatches(d, queue, pace, id);
      OneOutreachRuns(d, queue, id);
      OneRunCount(id, |queue|, pace);
      StandInsAskTheSearch(WindowOf(d), Steps(d, id), Ceil(|queue|, pace), LimitOf(fill), fill);
    }
  }

  lemma {:induction false} OneRunCount(id: Id, length: nat, pace: nat)
    requires pace >= 1
    ensures Count([Run(id, length)], pace) == Ceil(length, pace) && Count([], pace) == 0 == Ceil(0, pace)
  {
    assert [Run(id, length)][..0] == [];
  }

  /** A pace chosen on truthful answers is one the queue was fitted at. */
  lemma {:induction false} ChosenIsFitted(d: Draft, queue: seq<Person>, target: nat, schedule: Schedule, tries: nat)
    requires ValidDraft(d) && |WindowOf(d).Days()| >= 1 && ValidRuns(Runs(d, queue)) && target >= 1 && Truthful(d, queue, schedule)
    ensures var r := PaceFor(WindowOf(d), d, Runs(d, queue), target, schedule, tries);
      r.Pace? ==>
        && r.pace >= 1
        && (FittedSparsely(WindowOf(d), FlowsOf(d, Batches(d, queue, r.pace))) ||
            FittedFully(WindowOf(d), FlowsOf(d, Batches(d, queue, r.pace))))
  {
    hide ValidDraft, ValidFlow, WorkingDays, PaceFor, Runs, Crowded, Sparse, FoVerdict, Batches, FlowsOf, Count, Truthful;
    AtLeastOneFlow(d);
    var w, runs := WindowOf(d), Runs(d, queue);
    TopIsPositive(runs);
    ChoiceIsRight(w, d, runs, target, schedule, tries);
    var r := PaceFor(w, d, runs, target, schedule, tries);
    if r.Pace? {
      var t :| Chosen(w, d, runs, schedule, r, t);
      TruthAt(d, queue, schedule, r.pace);
    }
  }

  lemma {:induction false} TruthAt(d: Draft, queue: seq<Person>, schedule: Schedule, pace: nat)
    requires ValidDraft(d) && |WindowOf(d).Days()| >= 1 && Truthful(d, queue, schedule) && pace >= 1
    ensures TruthfulAt(d, queue, schedule, pace, EveryDay) && TruthfulAt(d, queue, schedule, pace, FewestEmpty)
  {
    hide TruthfulAt;
  }
}
