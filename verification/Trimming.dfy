/**
 * Which contacts stay: the trim of an edited outreach and the cut of a reshaped one, in
 * fitCampaign of src/lib/campaign-fit.ts.
 */
module Trimming {
  import opened Days
  import opened Placement
  import opened Starts
  import opened Room
  import opened Queues
  import opened Campaign
  import opened Measure
  import opened Paces

  /** Batch counts tried for an outreach the user has edited, and trimmed queues tried. */
  const EDITED_TRIES: nat := 40
  const TRIM_TRIES: nat := 8

  lemma {:induction false} RunsAreValid(d: Draft, queue: seq<Person>)
    requires queue != []
    ensures ValidRuns(Runs(d, queue))
  {
    hide FlowId;
    if |queue| > 1 {
      RunsAreValid(d, queue[..|queue| - 1]);
    }
  }

  /** fitEdited on the first `k` people, the planner asked through `schedule`. */
  ghost function FitFirst(w: Window, d: Draft, queue: seq<Person>, k: nat, target: nat, schedule: Schedule): PaceResult
    requires ValidDraft(d) && 1 <= k <= |queue| && target >= 1
  {
    RunsAreValid(d, queue[..k]);
    PaceFor(w, d, Runs(d, queue[..k]), target, schedule, EDITED_TRIES)
  }

  method FitEdited(w: Window, d: Draft, queue: seq<Person>, k: nat, target: nat, schedule: Schedule) returns (r: PaceResult)
    requires ValidDraft(d) && 1 <= k <= |queue| && target >= 1
    ensures r == FitFirst(w, d, queue, k, target, schedule)
  {
    hide ValidDraft, PaceFor;
    RunsAreValid(d, queue[..k]);
    var runs := RunsOf(d, queue, k);
    r := ChoosePace(w, d, runs, target, schedule, EDITED_TRIES);
  }

  /** Even 500 a day is too slow for the first `k` people. */
  ghost predicate Hopeless(w: Window, d: Draft, queue: seq<Person>, k: nat)
    requires ValidDraft(d) && k <= |queue|
  {
    Crowded(w, d, Runs(d, queue[..k]), MAX_PACE)
  }

  /**
   * One FO's queue on an edited outreach: whole if it can be planned, otherwise, when 500 a day is
   * not enough, the longest part that is and then 500 people fewer at a time.
   */
  method KeepWhatFits(w: Window, d: Draft, queue: seq<Person>, target: nat, schedules: nat -> Schedule, allowTrim: bool)
    returns (r: PaceResult, kept: nat)
    requires ValidDraft(d) && queue != [] && target >= 1
    ensures 1 <= kept <= |queue|
    ensures r == FitFirst(w, d, queue, kept, target, schedules(kept))
    ensures kept < |queue| ==> allowTrim && r.Pace? && FitFirst(w, d, queue, |queue|, target, schedules(|queue|)) == NoPace(TooManyPeople)
    ensures forall k :: kept < k < |queue| && (k - kept) % MAX_PACE == 0 ==>
      Hopeless(w, d, queue, k) || FitFirst(w, d, queue, k, target, schedules(k)).NoPace?
    ensures forall k :: kept + TRIM_TRIES * MAX_PACE <= k < |queue| ==> Hopeless(w, d, queue, k)
  {
    hide ValidDraft, FitFirst, Hopeless, Crowded, Runs;
    kept := |queue|;
    r := FitEdited(w, d, queue, kept, target, schedules(kept));
    if r == NoPace(TooManyPeople) && allowTrim {
      var most := LongestThatFits(w, d, queue, MAX_PACE);
      MostIsMost(w, d, queue, most);
      var k, n := most, 0;
      while k >= 1 && n < TRIM_TRIES
        invariant n <= TRIM_TRIES && k == most - MAX_PACE * n
        invariant n > 0 ==> k + MAX_PACE >= 1
        invariant forall j: nat :: j < n ==> most - MAX_PACE * j >= 1 && FitFirst(w, d, queue, most - MAX_PACE * j, target, schedules(most - MAX_PACE * j)).NoPace?
      {
        var trimmed := FitEdited(w, d, queue, k, target, schedules(k));
        if trimmed.Pace? {
          TriedAll(w, d, queue, target, schedules, most, n);
          return trimmed, k;
        }
        k, n := k - MAX_PACE, n + 1;
      }
    }
  }

  lemma {:induction false} MostIsMost(w: Window, d: Draft, queue: seq<Person>, most: nat)
    requires ValidDraft(d) && most < |queue|
    requires forall n :: most < n < |queue| ==> Crowded(w, d, Runs(d, queue[..n]), MAX_PACE)
    ensures forall n :: most < n < |queue| ==> Hopeless(w, d, queue, n)
  {
    hide ValidDraft, Crowded, Runs;
  }

  /** Every longer part a multiple of 500 away was either tried in vain or too long to try. */
  lemma {:induction false} TriedAll(w: Window, d: Draft, queue: seq<Person>, target: nat, schedules: nat -> Schedule, most: nat, n: nat)
    requires ValidDraft(d) && target >= 1 && 1 <= most - MAX_PACE * n <= most < |queue|
    requires forall k :: most < k < |queue| ==> Hopeless(w, d, queue, k)
    requires forall j: nat :: j < n ==> FitFirst(w, d, queue, most - MAX_PACE * j, target, schedules(most - MAX_PACE * j)).NoPace?
    ensures forall k :: most - MAX_PACE * n < k < |queue| && (k - (most - MAX_PACE * n)) % MAX_PACE == 0 ==>
      Hopeless(w, d, queue, k) || FitFirst(w, d, queue, k, target, schedules(k)).NoPace?
  {
    hide ValidDraft, FitFirst, Hopeless;
    forall k | most - MAX_PACE * n < k <= most && (k - (most - MAX_PACE * n)) % MAX_PACE == 0
      ensures FitFirst(w, d, queue, k, target, schedules(k)).NoPace?
    {
      var up := (k - (most - MAX_PACE * n)) / MAX_PACE;
      assert k == most - MAX_PACE * (n - up);
    }
  }

  // ---------------------------------------------------------------- too long at 500 is too long at any pace

  /** A pace that is too slow stays too slow when it falls. */
  lemma {:induction false} CrowdedFalls(w: Window, d: Draft, runs: seq<Run>, a: nat, b: nat)
    requires ValidDraft(d) && 1 <= a <= b && Crowded(w, d, runs, b)
    ensures Crowded(w, d, runs, a)
  {
    hide ValidDraft, StartsOf, Count, RunTouches, PerFlow, Steps;
    AtLeastOneFlow(d);
    CountFalls(runs, a, b);
    TouchesFall(d, runs, a, b);
    if id :| TooMany(w, d, runs, b, id) {
      PerFlowFalls(runs, a, b, id);
      assert TooMany(w, d, runs, a, id);
    }
  }

  lemma {:induction false} TouchesFall(d: Draft, runs: seq<Run>, a: nat, b: nat)
    requires |d.flows| >= 1 && 1 <= a <= b
    ensures RunTouches(d, runs, b) <= RunTouches(d, runs, a)
  {
    hide Ceil, Steps;
    if runs != [] {
      var r := runs[|runs| - 1];
      TouchesFall(d, runs[..|runs| - 1], a, b);
      CeilFalls(r.length, a, b);
      Distribute(Ceil(r.length, a), Ceil(r.length, b), |Steps(d, r.flow)|);
    }
  }

  lemma {:induction false} PerFlowFalls(runs: seq<Run>, a: nat, b: nat, id: Id)
    requires 1 <= a <= b
    ensures PerFlow(runs, b, id) <= PerFlow(runs, a, id)
  {
    hide Ceil;
    if runs != [] {
      PerFlowFalls(runs[..|runs| - 1], a, b, id);
      CeilFalls(runs[|runs| - 1].length, a, b);
    }
  }

  /** Nothing the trim skips as hopeless could have been planned: no pace within 500 a day has an arrangement. */
  lemma {:induction false} HopelessMeansNoPlan(w: Window, d: Draft, queue: seq<Person>, k: nat, pace: nat, plan: seq<Start>)
    requires ValidDraft(d) && 1 <= k <= |queue| && Hopeless(w, d, queue, k) && |w.Days()| >= 1
    requires 1 <= pace <= MAX_PACE
    ensures !Arrangement(w, FlowsOf(d, Batches(d, queue[..k], pace)), plan)
  {
    hide ValidDraft, WorkingDays, Crowded, Runs, Arrangement, Batches;
    CrowdedFalls(w, d, Runs(d, queue[..k]), pace, MAX_PACE);
    if Arrangement(w, FlowsOf(d, Batches(d, queue[..k], pace)), plan) {
      MeasureRefutes(w, d, queue[..k], pace, plan);
    }
  }

  // ---------------------------------------------------------------- all FOs

  datatype Trimmed = Trimmed(kept: Roster, paces: seq<nat>, overflow: seq<Person>)

  /** Each FO keeps a prefix of their queue, at least one person of it, and the rest is the overflow. */
  ghost predicate Partition(roster: Roster, t: Trimmed) {
    && |t.kept| == |t.paces| == |roster|
    && (forall i :: 0 <= i < |roster| ==> t.kept[i] <= roster[i] && (t.kept[i] == [] <==> roster[i] == []))
    && multiset(Everyone(t.kept)) + multiset(t.overflow) == multiset(Everyone(roster))
  }

  /** One more FO, keeping the first `k` of their queue. */
  lemma {:induction false} PartitionGrows(roster: Roster, n: nat, t: Trimmed, k: nat, pace: nat)
    requires n < |roster| && Partition(roster[..n], t) && k <= |roster[n]| && (k == 0 ==> roster[n] == [])
    ensures Partition(roster[..n + 1], Trimmed(t.kept + [roster[n][..k]], t.paces + [pace], t.overflow + roster[n][k..]))
  {
    hide Everyone;
    var kept := t.kept + [roster[n][..k]];
    forall i | 0 <= i <= n
      ensures kept[i] <= roster[..n + 1][i] && (kept[i] == [] <==> roster[..n + 1][i] == [])
    {
      if i < n {
        assert roster[..n][i] == roster[i];
      }
    }
    OneQueueMore(roster[..n], roster[n]);
    OneQueueMore(t.kept, roster[n][..k]);
    assert roster[..n] + [roster[n]] == roster[..n + 1];
    assert roster[n] == roster[n][..k] + roster[n][k..];
    Regroup(multiset(Everyone(t.kept)), multiset(roster[n][..k]), multiset(t.overflow), multiset(roster[n][k..]));
  }

  lemma {:induction false} OneQueueMore(roster: Roster, queue: seq<Person>)
    ensures multiset(Everyone(roster + [queue])) == multiset(Everyone(roster)) + multiset(queue)
  {
    assert (roster + [queue])[..|roster|] == roster;
  }

  lemma {:induction false} Regroup(a: multiset<Person>, b: multiset<Person>, c: multiset<Person>, e: multiset<Person>)
    ensures (a + b) + (c + e) == (a + c) + (b + e)
  {
  }

  lemma {:induction false} QuotaIsPositive(d: Draft, i: nat)
    requires ValidDraft(d) && i < |d.fos|
    ensures d.fos[i].batchSize >= 1
  {
    hide ValidFlow;
  }

  /** FO `i`'s kept queue has a pace. */
  ghost predicate Paced(w: Window, d: Draft, queue: seq<Person>, target: nat, schedules: nat -> Schedule, k: nat, pace: nat)
    requires ValidDraft(d)
  {
    1 <= k <= |queue| && target >= 1 && FitFirst(w, d, queue, k, target, schedules(k)).Pace?
    && FitFirst(w, d, queue, k, target, schedules(k)).pace == pace
  }

  /** The edited branch: every FO with contacts in turn; one that cannot be planned is a problem. */
  method TrimAll(w: Window, d: Draft, roster: Roster, schedules: nat -> nat -> Schedule, allowTrim: bool) returns (t: Trimmed, problems: seq<Id>)
    requires ValidDraft(d) && |roster| == |d.fos|
    ensures problems == [] ==> Partition(roster, t)
    ensures problems == [] ==> forall i :: 0 <= i < |roster| && roster[i] != [] ==>
      Paced(w, d, roster[i], d.fos[i].batchSize, schedules(i), |t.kept[i]|, t.paces[i])
    ensures !allowTrim && problems == [] ==> t.kept == roster && t.overflow == []
  {
    hide ValidDraft, Partition, Paced, FitFirst, Hopeless;
    t, problems := Trimmed([], [], []), [];
    NothingKept(roster, t);
    for i := 0 to |roster|
      invariant |t.kept| == |t.paces| == i || problems != []
      invariant problems == [] ==> Partition(roster[..i], t)
      invariant problems == [] ==> forall j :: 0 <= j < i && roster[j] != [] ==>
        Paced(w, d, roster[j], d.fos[j].batchSize, schedules(j), |t.kept[j]|, t.paces[j])
      invariant !allowTrim && problems == [] ==> t.kept == roster[..i] && t.overflow == []
    {
      QuotaIsPositive(d, i);
      var kept, pace := 0, d.fos[i].batchSize;
      if roster[i] != [] {
        var r;
        r, kept := KeepWhatFits(w, d, roster[i], d.fos[i].batchSize, schedules(i), allowTrim);
        match r {
          case Pace(p, _) => pace := p;
          case NoPace(_) => problems := problems + [d.fos[i].id];
        }
        assert r.Pace? ==> Paced(w, d, roster[i], d.fos[i].batchSize, schedules(i), kept, pace) by {
          IsPaced(w, d, roster[i], d.fos[i].batchSize, schedules(i), kept, pace);
        }
      }
      if problems == [] {
        PartitionGrows(roster, i, t, kept, pace);
        assert kept == |roster[i]| ==> roster[i][..kept] == roster[i] && roster[i][kept..] == [];
        assert roster[..i + 1] == roster[..i] + [roster[i]];
        t := Trimmed(t.kept + [roster[i][..kept]], t.paces + [pace], t.overflow + roster[i][kept..]);
      }
    }
    assert roster[..|roster|] == roster;
  }

  lemma {:induction false} IsPaced(w: Window, d: Draft, queue: seq<Person>, target: nat, schedules: nat -> Schedule, k: nat, pace: nat)
    requires ValidDraft(d) && 1 <= k <= |queue| && target >= 1
    ensures var r := FitFirst(w, d, queue, k, target, schedules(k)); r.Pace? && r.pace == pace ==> Paced(w, d, queue, target, schedules, k, pace)
  {
    hide FitFirst;
  }

  lemma {:induction false} NothingKept(roster: Roster, t: Trimmed)
    requires t == Trimmed([], [], [])
    ensures Partition(roster[..0], t)
  {
  }

  /** The reshaped branch: nobody above 500 a working day; without leave to trim, a longer queue ends it. */
  method CutAll(w: Window, d: Draft, roster: Roster, allowTrim: bool) returns (t: Option<Trimmed>)
    requires |roster| == |d.fos| && |w.Days()| >= 1
    ensures t.Some? ==> Partition(roster, t.value)
    ensures t.Some? ==> forall i :: 0 <= i < |roster| ==>
      |t.value.kept[i]| == if |roster[i]| > MAX_PACE * |w.Days()| then MAX_PACE * |w.Days()| else |roster[i]|
    ensures t.None? <==> !allowTrim && exists i :: 0 <= i < |roster| && |roster[i]| > MAX_PACE * |w.Days()|
  {
    hide Partition, WorkingDays;
    var days := CalendarDays(w.start, w.end);
    var room := MAX_PACE * |days|;
    var so := Trimmed([], [], []);
    NothingKept(roster, so);
    for i := 0 to |roster|
      invariant |so.kept| == |so.paces| == i && Partition(roster[..i], so)
      invariant forall j :: 0 <= j < i ==> |so.kept[j]| == if |roster[j]| > room then room else |roster[j]|
      invariant !allowTrim ==> forall j :: 0 <= j < i ==> |roster[j]| <= room
    {
      if |roster[i]| > room && !allowTrim {
        return None;
      }
      var kept := if |roster[i]| > room then room else |roster[i]|;
      PartitionGrows(roster, i, so, kept, d.fos[i].batchSize);
      so := Trimmed(so.kept + [roster[i][..kept]], so.paces + [d.fos[i].batchSize], so.overflow + roster[i][kept..]);
    }
    assert roster[..|roster|] == roster;
    t := Some(so);
  }
}
