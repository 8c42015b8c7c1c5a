/** fitCampaign on an outreach the user has edited. */
module Keeping {
  // From the queues to the calendar: src/lib/campaign-fit.ts.

  import opened Days
  import opened Sorting
  import opened Starts
  import opened Room
  import opened Queues
  import opened Campaign
  import opened Measure
  import opened Paces
  import opened Certain
  import opened Edited
  import opened Trimming
  import opened FinalPlan

  /** The pace found for an FO is at least one a day. */
  lemma {:induction false} PaceIsPositive(w: Window, d: Draft, queue: seq<Person>, target: nat, schedules: nat -> Schedule, k: nat, pace: nat)
    requires ValidDraft(d) && Paced(w, d, queue, target, schedules, k, pace)
    ensures pace >= 1
  {
    hide ValidDraft, ValidFlow, WorkingDays, PaceFor, Runs, Crowded, Fills, Works;
    RunsAreValid(d, queue[..k]);
    var runs := Runs(d, queue[..k]);
    AtLeastOneFlow(d);
    TopIsPositive(runs);
    ChoiceIsRight(w, d, runs, target, schedules(k), EDITED_TRIES);
    var t :| Chosen(w, d, runs, schedules(k), FitFirst(w, d, queue, k, target, schedules(k)), t);
  }

  /** Each FO's batches, as the user's own outreach cuts the queue they keep. */
  function CutFlows(d: Draft, t: Trimmed): (flows: seq<Flows>)
    requires ValidDraft(d) && |t.paces| == |t.kept|
    ensures |flows| == |t.kept| && AllValid(flows)
  {
    seq(|t.kept|, i requires 0 <= i < |t.kept| => FlowsOf(d, Batches(d, t.kept[i], t.paces[i])))
  }

  /** With the outreach unchanged, an FO's final queue is the very queue they keep. */
  lemma {:induction false} FinalQueueIsKept(d: Draft, people: seq<Person>, fos: seq<Fo>, t: Trimmed, i: nat)
    requires Ready(d, people, fos, Shape(d.flows, d.assignments), t) && i < |t.kept| && t.kept[i] != []
    requires ValidDraft(FinalDraft(d, Shape(d.flows, d.assignments), QueuesOf(Unpinned(d), people, fos).roster, t))
    ensures var f := FinalDraft(d, Shape(d.flows, d.assignments), QueuesOf(Unpinned(d), people, fos).roster, t);
      var roster := QueuesOf(f, KeepPeople(people, KeptIds(t.kept)), KeepFos(fos, f.fos)).roster;
      && FinalPlace(t.kept, i) < |f.fos| && roster[FinalPlace(t.kept, i)] == t.kept[i]
      && SameOutreaches(Unpinned(d), f, t.kept[i])
  {
    hide ValidDraft, QueuesOf, Everyone, KeepPeople, KeepFos, FinalPlace, FinalFos, PinsOf, OnePerId, SortedBy, FlowPlace;
    var shape := Shape(d.flows, d.assignments);
    var f := FinalDraft(d, shape, QueuesOf(Unpinned(d), people, fos).roster, t);
    var again, left := KeepPeople(people, KeptIds(t.kept)), KeepFos(fos, f.fos);
    NobodyStraysAgain(d, people, fos, shape, t);
    FinalPlaceListed(d, people, fos, shape, t, i);
    FinalQueuesAreKept(d, people, fos, shape, t, i);
    forall p | p in t.kept[i]
      ensures p.id in KeptIds(t.kept)
    {
      KeptHasId(t.kept, i, p);
    }
    KeptIsSorted(d, people, fos, shape, t, i);
    StaysSorted(Unpinned(d), f, t.kept[i]);
    KeptIsOnePerId(d, people, fos, shape, t, i);
    QueueHasOneOrder(f, again, left, FinalPlace(t.kept, i), t.kept[i]);
  }

  lemma {:induction false} KeptIsSorted(d: Draft, people: seq<Person>, fos: seq<Fo>, shape: Shape, t: Trimmed, i: nat)
    requires Ready(d, people, fos, shape, t) && i < |t.kept|
    ensures SortedBy(QueueOrder(Unpinned(d)), t.kept[i])
  {
    hide ValidDraft, QueuesOf, Everyone, OnePerId, InQueue;
    QueuesAreRightful(Unpinned(d), people, fos);
    var queue := QueuesOf(Unpinned(d), people, fos).roster[i];
    assert t.kept[i] <= queue && SortedBy(QueueOrder(Unpinned(d)), queue);
  }

  lemma {:induction false} KeptIsOnePerId(d: Draft, people: seq<Person>, fos: seq<Fo>, shape: Shape, t: Trimmed, i: nat)
    requires Ready(d, people, fos, shape, t) && i < |t.kept|
    ensures OnePerId(multiset(t.kept[i]))
  {
    hide ValidDraft, QueuesOf, Everyone, Partition;
    KeptAreOurs(d, people, fos, shape, t);
    forall p
      ensures multiset(t.kept[i])[p] <= multiset(people)[p]
    {
      InEveryone(t.kept, i, p);
    }
  }

  lemma {:induction false} CutFlowsAreFinal(d: Draft, people: seq<Person>, fos: seq<Fo>, t: Trimmed)
    requires Ready(d, people, fos, Shape(d.flows, d.assignments), t)
    requires ValidDraft(FinalDraft(d, Shape(d.flows, d.assignments), QueuesOf(Unpinned(d), people, fos).roster, t))
    ensures FinalFlows(d, people, fos, Shape(d.flows, d.assignments), t, CutFlows(Unpinned(d), t))
  {
    hide ValidDraft, QueuesOf, Everyone, KeepPeople, KeepFos, FinalPlace, FinalDraft, Batches, FlowsOf, OnePerId, SameOutreaches;
    var shape := Shape(d.flows, d.assignments);
    var f := FinalDraft(d, shape, QueuesOf(Unpinned(d), people, fos).roster, t);
    forall i | 0 <= i < |t.kept| && t.kept[i] != []
      ensures FinalPlace(t.kept, i) < |f.fos|
      ensures FlowsFor(f, QueuesOf(f, KeepPeople(people, KeptIds(t.kept)), KeepFos(fos, f.fos)).roster, FinalPlace(t.kept, i)) == CutFlows(Unpinned(d), t)[i]
    {
      FinalQueueIsKept(d, people, fos, t, i);
      FinalPlaceListed(d, people, fos, shape, t, i);
      SameBatches(Unpinned(d), f, t.kept[i], t.paces[i]);
      SameFlowLists(d, people, fos, shape, t);
      SameFlows(Unpinned(d), f, Batches(f, t.kept[i], t.paces[i]));
    }
  }

  /** The schedules every FO was asked through tell the truth about every part of their queue. */
  ghost predicate AllTruthful(d: Draft, roster: Roster, schedules: nat -> nat -> Schedule)
    requires ValidDraft(d) && |WindowOf(d).Days()| >= 1
  {
    forall i, k :: 0 <= i < |roster| && 1 <= k <= |roster[i]| ==> Truthful(d, roster[i][..k], schedules(i)(k))
  }

  lemma {:induction false} PacedIsFitted(d: Draft, queue: seq<Person>, target: nat, schedules: nat -> Schedule, k: nat, pace: nat)
    requires ValidDraft(d) && |WindowOf(d).Days()| >= 1 && Paced(WindowOf(d), d, queue, target, schedules, k, pace)
    requires Truthful(d, queue[..k], schedules(k))
    ensures var flows := FlowsOf(d, Batches(d, queue[..k], pace)); FittedSparsely(WindowOf(d), flows) || FittedFully(WindowOf(d), flows)
  {
    hide ValidDraft, WorkingDays, PaceFor, Runs, Truthful, FlowsOf, Batches, FittedSparsely, FittedFully;
    RunsAreValid(d, queue[..k]);
    ChosenIsFitted(d, queue[..k], target, schedules(k), EDITED_TRIES);
  }

  /**
   * fitCampaign on an outreach the user has edited, from the queues to the calendar. Whatever it
   * hands back keeps every contact once, in the plan or the overflow, and each FO's planned contacts
   * are the first of their queue; without leave to trim nobody is left over. And it hands a plan
   * back whenever every FO with contacts got a pace, unless the only plan found for some FO fills
   * every day and an FO before them outran that search.
   */
  method FitKeepingOutreach(d: Draft, people: seq<Person>, fos: seq<Fo>, schedules: nat -> nat -> Schedule, allowTrim: bool)
    returns (r: Option<Fitted>, problems: seq<Id>, t: Trimmed)
    requires ValidDraft(Unpinned(d)) && OnePerId(multiset(people))
    ensures problems != [] ==> r.None?
    ensures r.Some? ==> var roster := QueuesOf(Unpinned(d), people, fos).roster; var c := r.value.calendar;
      && c.valid && multiset(Planned(c.batches)) + multiset(r.value.overflow) == multiset(people)
      && (!allowTrim ==> r.value.overflow == [])
      && forall i :: 0 <= i < |roster| && roster[i] != [] ==>
        exists k :: 1 <= k <= |roster[i]| && multiset(Planned(Mine(c.batches, d.fos[i].id))) == multiset(roster[i][..k])
    ensures r.None? && problems == [] && WindowOf(d).Days() != [] && people != [] && QueuesOf(Unpinned(d), people, fos).stray == [] ==>
      && Partition(QueuesOf(Unpinned(d), people, fos).roster, t)
      && (AllTruthful(Unpinned(d), QueuesOf(Unpinned(d), people, fos).roster, schedules) ==>
           !InTime(WindowOf(d), t.kept, CutFlows(Unpinned(d), t)))
  {
    hide ValidDraft, WorkingDays, QueuesOf, Mine, Planned, OnePerId, Paced, Everyone, AllTruthful, InTime, AllFitted, CutFlows, FinalFlows, Partition, FinalDraft, AllValid;
    t := Trimmed([], [], []);
    var days := CalendarDays(d.start, d.end);
    if days == [] || people == [] {
      return None, [], t;
    }
    var q := CampaignQueues(Unpinned(d), people, fos);
    if q.stray != [] {
      return None, [], t;
    }
    var trimmed;
    trimmed, problems := TrimAll(WindowOf(d), Unpinned(d), q.roster, schedules, allowTrim);
    t := trimmed;
    if problems != [] {
      return None, problems, t;
    }
    IsReady(d, people, fos, schedules, trimmed);
    FinalDraftIsValid(d, people, fos, Shape(d.flows, d.assignments), trimmed);
    CutFlowsAreFinal(d, people, fos, trimmed);
    if AllTruthful(Unpinned(d), q.roster, schedules) {
      TrimmedIsFitted(d, people, fos, schedules, trimmed);
    }
    KeepsPrefixes(q.roster, trimmed);
    r := Finish(d, people, fos, Shape(d.flows, d.assignments), trimmed, CutFlows(Unpinned(d), trimmed));
    if r.Some? {
      forall i | 0 <= i < |q.roster| && q.roster[i] != []
        ensures exists k :: 1 <= k <= |q.roster[i]| && multiset(Planned(Mine(r.value.calendar.batches, d.fos[i].id))) == multiset(q.roster[i][..k])
      {
        assert q.roster[i][..|trimmed.kept[i]|] == trimmed.kept[i];
      }
    }
  }

  lemma {:induction false} KeepsPrefixes(roster: Roster, t: Trimmed)
    requires Partition(roster, t)
    ensures |t.kept| == |t.paces| == |roster|
    ensures forall i :: 0 <= i < |roster| ==> |t.kept[i]| <= |roster[i]| && t.kept[i] == roster[i][..|t.kept[i]|] && (t.kept[i] == [] <==> roster[i] == [])
  {
  }

  /** What the trim leaves is ready to be planned again. */
  lemma {:induction false} IsReady(d: Draft, people: seq<Person>, fos: seq<Fo>, schedules: nat -> nat -> Schedule, t: Trimmed)
    requires ValidDraft(Unpinned(d)) && OnePerId(multiset(people)) && people != [] && QueuesOf(Unpinned(d), people, fos).stray == []
    requires var roster := QueuesOf(Unpinned(d), people, fos).roster;
      && Partition(roster, t)
      && forall i :: 0 <= i < |roster| && roster[i] != [] ==> Paced(WindowOf(d), Unpinned(d), roster[i], d.fos[i].batchSize, schedules(i), |t.kept[i]|, t.paces[i])
    ensures Ready(d, people, fos, Shape(d.flows, d.assignments), t)
  {
    hide ValidDraft, WorkingDays, QueuesOf, OnePerId, Paced, Everyone;
    var roster := QueuesOf(Unpinned(d), people, fos).roster;
    forall i | 0 <= i < |t.kept| && t.kept[i] != []
      ensures t.paces[i] >= 1
    {
      PaceIsPositive(WindowOf(d), Unpinned(d), roster[i], d.fos[i].batchSize, schedules(i), |t.kept[i]|, t.paces[i]);
    }
    assert d.(flows := d.flows, assignments := d.assignments, pins := map[]) == Unpinned(d);
  }

  /** Answered truthfully, every FO who keeps anyone was fitted. */
  lemma {:induction false} TrimmedIsFitted(d: Draft, people: seq<Person>, fos: seq<Fo>, schedules: nat -> nat -> Schedule, t: Trimmed)
    requires ValidDraft(Unpinned(d)) && |WindowOf(d).Days()| >= 1
    requires var roster := QueuesOf(Unpinned(d), people, fos).roster;
      && Partition(roster, t) && AllTruthful(Unpinned(d), roster, schedules)
      && forall i :: 0 <= i < |roster| && roster[i] != [] ==> Paced(WindowOf(d), Unpinned(d), roster[i], d.fos[i].batchSize, schedules(i), |t.kept[i]|, t.paces[i])
    ensures AllFitted(WindowOf(d), t.kept, CutFlows(Unpinned(d), t))
  {
    hide ValidDraft, WorkingDays, QueuesOf, Paced, Everyone, Truthful, FittedSparsely, FittedFully, FlowsOf, Batches, Partition;
    var roster := QueuesOf(Unpinned(d), people, fos).roster;
    KeepsPrefixes(roster, t);
    forall i | 0 <= i < |t.kept| && t.kept[i] != []
      ensures var flows := CutFlows(Unpinned(d), t)[i]; FittedSparsely(WindowOf(d), flows) || FittedFully(WindowOf(d), flows)
    {
      PacedIsFitted(Unpinned(d), roster[i], d.fos[i].batchSize, schedules(i), |t.kept[i]|, t.paces[i]);
    }
  }
}
