/** Building the outreach the studio chose and planning with it: the reshaped branch of fitCampaign, src/lib/campaign-fit.ts. */
module Reshaping {
  import opened Days
  import opened Queues
  import opened Split
  import opened Trimming
  import opened Edited
  import opened FinalPlan

  /** The id of an FO's own outreach: `fo-` and the FO's id, never Default's. */
  function OwnId(fo: Id): Id {
    fo + 1
  }

  function Assign(assignments: map<Id, Id>, queue: seq<Person>, flow: Id): map<Id, Id> {
    if queue == [] then assignments else Assign(assignments, queue[..|queue| - 1], flow)[queue[|queue| - 1].id := flow]
  }

  lemma {:induction false} AssignExact(assignments: map<Id, Id>, queue: seq<Person>, flow: Id, id: Id)
    ensures var a := Assign(assignments, queue, flow);
      if exists p :: p in queue && p.id == id then id in a && a[id] == flow
      else (id in a <==> id in assignments) && (id in a ==> a[id] == assignments[id])
  {
    if queue != [] {
      var n := |queue| - 1;
      AssignExact(assignments, queue[..n], flow, id);
      assert queue == queue[..n] + [queue[n]];
      if exists p :: p in queue && p.id == id {
        var p :| p in queue && p.id == id;
        assert p in queue[..n] || p == queue[n];
      }
    }
  }

  /** The outreach FO `i`'s people follow once the first `n` FOs are set up. */
  function OutreachOf(fos: seq<Quota>, kept: Roster, picks: seq<Pick>, i: nat): Id
    requires i < |fos| == |kept| == |picks|
  {
    if kept[i] != [] && picks[i].own then OwnId(fos[i].id) else DEFAULT
  }

  /** What the shape is built from: an outreach for each FO, Default's for those without one of their own. */
  predicate Chosen(fos: seq<Quota>, kept: Roster, flows: seq<Flow>, main: nat, picks: seq<Pick>) {
    && |fos| == |kept| == |picks| && main < |flows|
    && (forall i :: 0 <= i < |flows| ==> ValidFlow(flows[i]))
    && forall i :: 0 <= i < |picks| ==> picks[i].i < |flows| && (!picks[i].own ==> picks[i].i == main) && picks[i].pace >= 1
  }

  /** Whether FO `i` gets an outreach of their own. */
  predicate HasOwn(kept: Roster, picks: seq<Pick>, i: nat)
    requires i < |kept| == |picks|
  {
    kept[i] != [] && picks[i].own
  }

  ghost predicate OwnIdOf(fos: seq<Quota>, n: nat, id: Id)
    requires n <= |fos|
  {
    exists i :: 0 <= i < n && id == OwnId(fos[i].id)
  }

  /** Default and the outreaches of the first `n` FOs are listed, each once. */
  ghost predicate FlowsBuilt(fos: seq<Quota>, kept: Roster, flows: seq<Flow>, main: nat, picks: seq<Pick>, n: nat, list: seq<Outreach>)
    requires Chosen(fos, kept, flows, main, picks) && n <= |fos|
  {
    && list != [] && list[0] == Outreach(DEFAULT, flows[main])
    && (forall x :: 0 <= x < |list| ==> ValidFlow(list[x].steps))
    && (forall x :: 1 <= x < |list| ==> OwnIdOf(fos, n, list[x].id))
    && (forall x, y :: 0 <= x < y < |list| ==> list[x].id != list[y].id)
    && forall i :: 0 <= i < n && HasOwn(kept, picks, i) ==> Outreach(OwnId(fos[i].id), flows[picks[i].i]) in list
  }

  predicate Follows(assignments: map<Id, Id>, p: Person, flow: Id) {
    (if p.id in assignments then assignments[p.id] else DEFAULT) == flow
  }

  /** The first `n` FOs' people follow their FO's outreach, and nobody else is assigned yet. */
  ghost predicate PeopleAssigned(fos: seq<Quota>, kept: Roster, picks: seq<Pick>, n: nat, assignments: map<Id, Id>)
    requires n <= |fos| == |kept| == |picks|
  {
    && (forall id :: id in assignments ==> exists i :: 0 <= i < n && HasOwn(kept, picks, i) && assignments[id] == OwnId(fos[i].id))
    && (forall i, p :: 0 <= i < n && p in kept[i] ==> Follows(assignments, p, OutreachOf(fos, kept, picks, i)))
    && (forall i, p :: n <= i < |kept| && p in kept[i] ==> p.id !in assignments)
  }

  predicate DistinctIds(fos: seq<Quota>) {
    forall i, j :: 0 <= i < j < |fos| ==> fos[i].id != fos[j].id
  }

  lemma {:induction false} OneMoreFlow(fos: seq<Quota>, kept: Roster, flows: seq<Flow>, main: nat, picks: seq<Pick>, n: nat, list: seq<Outreach>)
    requires Chosen(fos, kept, flows, main, picks) && n < |fos| && DistinctIds(fos)
    requires FlowsBuilt(fos, kept, flows, main, picks, n, list)
    ensures FlowsBuilt(fos, kept, flows, main, picks, n + 1,
      if HasOwn(kept, picks, n) then list + [Outreach(OwnId(fos[n].id), flows[picks[n].i])] else list)
  {
    hide ValidFlow;
    if HasOwn(kept, picks, n) {
      var longer := list + [Outreach(OwnId(fos[n].id), flows[picks[n].i])];
      forall x | 1 <= x < |list|
        ensures OwnIdOf(fos, n + 1, list[x].id) && list[x].id != OwnId(fos[n].id)
      {
        StillOwn(fos, n, list[x].id);
      }
      assert OwnIdOf(fos, n + 1, OwnId(fos[n].id));
      assert longer[|list|] in longer;
    } else {
      forall x | 1 <= x < |list|
        ensures OwnIdOf(fos, n + 1, list[x].id)
      {
        StillOwn(fos, n, list[x].id);
      }
    }
  }

  lemma {:induction false} StillOwn(fos: seq<Quota>, n: nat, id: Id)
    requires n < |fos| && DistinctIds(fos) && OwnIdOf(fos, n, id)
    ensures OwnIdOf(fos, n + 1, id) && id != OwnId(fos[n].id)
  {
    var i :| 0 <= i < n && id == OwnId(fos[i].id);
    assert fos[i].id != fos[n].id;
  }

  lemma {:induction false} OneMoreQueue(fos: seq<Quota>, kept: Roster, picks: seq<Pick>, n: nat, assignments: map<Id, Id>)
    requires n < |fos| == |kept| == |picks| && OnePerId(multiset(Everyone(kept)))
    requires PeopleAssigned(fos, kept, picks, n, assignments)
    ensures PeopleAssigned(fos, kept, picks, n + 1, if HasOwn(kept, picks, n) then Assign(assignments, kept[n], OwnId(fos[n].id)) else assignments)
  {
    hide Everyone, OnePerId, Assign;
    if HasOwn(kept, picks, n) {
      var own := OwnId(fos[n].id);
      var after := Assign(assignments, kept[n], own);
      forall id | id in after
        ensures exists i :: 0 <= i < n + 1 && HasOwn(kept, picks, i) && after[id] == OwnId(fos[i].id)
      {
        AssignExact(assignments, kept[n], own, id);
        if !exists p :: p in kept[n] && p.id == id {
          var i :| 0 <= i < n && HasOwn(kept, picks, i) && assignments[id] == OwnId(fos[i].id);
          assert after[id] == OwnId(fos[i].id);
        }
      }
      forall i, p | 0 <= i < |kept| && p in kept[i] && i != n
        ensures (p.id in after <==> p.id in assignments) && (p.id in after ==> after[p.id] == assignments[p.id])
      {
        AssignExact(assignments, kept[n], own, p.id);
        NotOurs(kept, n, i, p);
      }
      forall p | p in kept[n]
        ensures Follows(after, p, own)
      {
        AssignExact(assignments, kept[n], own, p.id);
      }
    } else {
      forall id | id in assignments
        ensures exists i :: 0 <= i < n + 1 && HasOwn(kept, picks, i) && assignments[id] == OwnId(fos[i].id)
      {
        var i :| 0 <= i < n && HasOwn(kept, picks, i) && assignments[id] == OwnId(fos[i].id);
      }
    }
  }

  /** Nobody in another queue shares an id with someone in this one. */
  lemma {:induction false} NotOurs(kept: Roster, n: nat, i: nat, p: Person)
    requires n < |kept| && i < |kept| && i != n && p in kept[i] && OnePerId(multiset(Everyone(kept)))
    ensures !exists q :: q in kept[n] && q.id == p.id
  {
    hide Everyone, OnePerId;
    forall q | q in kept[n]
      ensures q.id != p.id
    {
      if i < n {
        NotInTwo(kept, i, n, p, q);
      } else {
        NotInTwo(kept, n, i, q, p);
      }
    }
  }

  /** flows and assignments: the lead's outreach as Default, and one more for each FO it would slow down. */
  method BuildShape(fos: seq<Quota>, kept: Roster, flows: seq<Flow>, main: nat, picks: seq<Pick>) returns (s: Shape)
    requires Chosen(fos, kept, flows, main, picks) && DistinctIds(fos) && OnePerId(multiset(Everyone(kept)))
    ensures FlowsBuilt(fos, kept, flows, main, picks, |fos|, s.flows) && PeopleAssigned(fos, kept, picks, |fos|, s.assignments)
  {
    hide Everyone, OnePerId, Assign, ValidFlow, DistinctIds;
    var list, assignments := [Outreach(DEFAULT, flows[main])], map[];
    for i := 0 to |fos|
      invariant FlowsBuilt(fos, kept, flows, main, picks, i, list)
      invariant PeopleAssigned(fos, kept, picks, i, assignments)
    {
      OneMoreFlow(fos, kept, flows, main, picks, i, list);
      OneMoreQueue(fos, kept, picks, i, assignments);
      if HasOwn(kept, picks, i) {
        list := list + [Outreach(OwnId(fos[i].id), flows[picks[i].i])];
        assignments := Assign(assignments, kept[i], OwnId(fos[i].id));
      }
    }
    s := Shape(list, assignments);
  }

  /** The outreach built is one the planner accepts. */
  lemma {:induction false} ShapeIsValid(d: Draft, kept: Roster, flows: seq<Flow>, main: nat, picks: seq<Pick>, s: Shape)
    requires ValidDraft(Unpinned(d)) && Chosen(d.fos, kept, flows, main, picks)
    requires FlowsBuilt(d.fos, kept, flows, main, picks, |d.fos|, s.flows) && PeopleAssigned(d.fos, kept, picks, |d.fos|, s.assignments)
    ensures ValidDraft(d.(flows := s.flows, assignments := s.assignments, pins := map[]))
  {
    hide ValidFlow;
    forall id | id in s.assignments
      ensures exists x :: 0 <= x < |s.flows| && s.flows[x].id == s.assignments[id]
    {
      var i :| 0 <= i < |d.fos| && HasOwn(kept, picks, i) && s.assignments[id] == OwnId(d.fos[i].id);
      assert Outreach(OwnId(d.fos[i].id), flows[picks[i].i]) in s.flows;
    }
  }

  /** Everyone FO `i` keeps follows, in the final draft, the outreach that FO was fitted on. */
  lemma {:induction false} EveryoneFollowsTheirPick(d: Draft, people: seq<Person>, fos: seq<Fo>, flows: seq<Flow>, main: nat, picks: seq<Pick>, s: Shape, t: Trimmed, i: nat, p: Person)
    requires Ready(d, people, fos, s, t) && Chosen(d.fos, t.kept, flows, main, picks)
    requires FlowsBuilt(d.fos, t.kept, flows, main, picks, |d.fos|, s.flows) && PeopleAssigned(d.fos, t.kept, picks, |d.fos|, s.assignments)
    requires i < |t.kept| && p in t.kept[i]
    ensures var f := FinalDraft(d, s, QueuesOf(Unpinned(d), people, fos).roster, t);
      |f.flows| >= 1 && FlowId(f, p) == OutreachOf(d.fos, t.kept, picks, i) && Steps(f, FlowId(f, p)) == flows[picks[i].i]
  {
    hide ValidFlow, ValidDraft, QueuesOf, Everyone, OnePerId, FinalFos, PinsOf, Partition;
    KeptHasId(t.kept, i, p);
    var id := OutreachOf(d.fos, t.kept, picks, i);
    assert Follows(s.assignments, p, id);
    if HasOwn(t.kept, picks, i) {
      FlowFound(s.flows, Outreach(OwnId(d.fos[i].id), flows[picks[i].i]));
    } else {
      FlowFound(s.flows, Outreach(DEFAULT, flows[main]));
    }
  }

  lemma {:induction false} FlowFound(list: seq<Outreach>, o: Outreach)
    requires o in list && forall x, y :: 0 <= x < y < |list| ==> list[x].id != list[y].id
    ensures FlowPlace(list, o.id) < |list| && list[FlowPlace(list, o.id)] == o
  {
    var x :| 0 <= x < |list| && list[x] == o;
    var y := FlowPlace(list, o.id);
    assert y <= x;
  }

  /** The first people of a queue, all of it when it is no longer. */
  function Front(queue: seq<Person>, n: nat): seq<Person> {
    if |queue| > n then queue[..n] else queue
  }

  lemma {:induction false} KeptAreFronts(roster: Roster, t: Trimmed, n: nat)
    requires Partition(roster, t) && forall i :: 0 <= i < |roster| ==> |t.kept[i]| == if |roster[i]| > n then n else |roster[i]|
    ensures forall i :: 0 <= i < |roster| ==> t.kept[i] == Front(roster[i], n) && (roster[i] != [] ==> t.kept[i] != [])
    ensures |t.kept| == |roster|
  {
  }

  lemma {:induction false} StillPartition(roster: Roster, t: Trimmed, u: Trimmed)
    requires Partition(roster, t) && |u.paces| == |roster| && u.kept == t.kept && u.overflow == t.overflow
    ensures Partition(roster, u) && |u.kept| == |roster|
  {
  }

  lemma {:induction false} DistinctInDraft(d: Draft)
    requires ValidDraft(Unpinned(d))
    ensures DistinctIds(d.fos)
  {
    hide ValidFlow;
  }

  lemma {:induction false} KeptAreOne(d: Draft, people: seq<Person>, fos: seq<Fo>, t: Trimmed)
    requires ValidDraft(Unpinned(d)) && OnePerId(multiset(people)) && QueuesOf(Unpinned(d), people, fos).stray == []
    requires Partition(QueuesOf(Unpinned(d), people, fos).roster, t)
    ensures OnePerId(multiset(Everyone(t.kept)))
  {
    hide ValidDraft, QueuesOf, Everyone;
    QueuesKeepEveryone(Unpinned(d), people, fos);
    var all, kept := multiset(people), multiset(Everyone(t.kept));
    assert kept + multiset(t.overflow) == all;
    assert forall p :: kept[p] <= all[p];
  }

  lemma {:induction false} NothingLeftOver(roster: Roster, t: Trimmed)
    requires Partition(roster, t) && t.kept == roster
    ensures t.overflow == []
  {
    hide Everyone;
    assert |multiset(Everyone(roster)) + multiset(t.overflow)| == |Everyone(roster)| + |t.overflow|;
  }
}
