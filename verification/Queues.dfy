/** Who starts when, per FO: campaignQueues and campaignBatches of src/lib/campaign-planner.ts. */
module Queues {
  import opened Days
  import opened Sorting

  type Id = nat

  /** `name` stands for the name's place in the collation order; `priority` is contactPriority. */
  datatype Person = Person(id: Id, name: int, owner: Option<Id>, priority: nat)

  datatype Fo = Fo(id: Id, member: Option<Id>)

  /** An FO as the draft lists them: how many new people a day. */
  datatype Quota = Quota(id: Id, batchSize: nat)

  datatype Outreach = Outreach(id: Id, steps: Flow)

  datatype Draft = Draft(start: Day, end: Day, fos: seq<Quota>, flows: seq<Outreach>, assignments: map<Id, Id>, pins: map<Id, Id>)

  const DEFAULT: Id := 0

  /** The draft schema: each FO once with a pace of at least one, each outreach once, Default first, assignments inside it. */
  predicate ValidDraft(d: Draft) {
    && |d.fos| >= 1
    && (forall i :: 0 <= i < |d.fos| ==> d.fos[i].batchSize >= 1)
    && (forall i, j :: 0 <= i < j < |d.fos| ==> d.fos[i].id != d.fos[j].id)
    && |d.flows| >= 1 && d.flows[0].id == DEFAULT
    && (forall i :: 0 <= i < |d.flows| ==> ValidFlow(d.flows[i].steps))
    && (forall i, j :: 0 <= i < j < |d.flows| ==> d.flows[i].id != d.flows[j].id)
    && forall p :: p in d.assignments ==> exists i :: 0 <= i < |d.flows| && d.flows[i].id == d.assignments[p]
  }

  function FlowId(d: Draft, p: Person): Id {
    if p.id in d.assignments then d.assignments[p.id] else DEFAULT
  }

  /** The place of an outreach in the draft's list, past the end when it is not there. */
  function FlowPlace(flows: seq<Outreach>, id: Id): (i: nat)
    ensures i <= |flows|
    ensures i < |flows| ==> flows[i].id == id
    ensures forall j :: 0 <= j < i ==> flows[j].id != id
  {
    if flows == [] then 0
    else if flows[0].id == id then 0
    else
      var rest := FlowPlace(flows[1..], id);
      assert forall j :: 0 < j < |flows| ==> flows[j] == flows[1..][j - 1];
      rest + 1
  }

  /** The steps of an outreach; every batch's outreach is in the draft (FlowIsListed). */
  function Steps(d: Draft, id: Id): Flow
    requires |d.flows| >= 1
  {
    var i := FlowPlace(d.flows, id);
    if i < |d.flows| then d.flows[i].steps else d.flows[0].steps
  }

  lemma {:induction false} StepsAreValid(d: Draft, id: Id)
    requires ValidDraft(d)
    ensures ValidFlow(Steps(d, id))
  {
    hide ValidFlow;
  }

  /** Every person's outreach is one of the draft's. */
  lemma {:induction false} FlowIsListed(d: Draft, p: Person)
    requires ValidDraft(d)
    ensures FlowPlace(d.flows, FlowId(d, p)) < |d.flows|
  {
    hide ValidFlow;
    assert p.id !in d.assignments ==> d.flows[0].id == FlowId(d, p);
  }

  // ---------------------------------------------------------------- order

  /** Highest priority first, then by name, then by id. */
  predicate ByName(a: Person, b: Person) {
    a.priority < b.priority ||
    (a.priority == b.priority && (a.name < b.name || (a.name == b.name && a.id <= b.id)))
  }

  /** Inside one FO's queue equal priorities are grouped by outreach. */
  predicate InQueue(d: Draft, a: Person, b: Person) {
    var x, y := FlowPlace(d.flows, FlowId(d, a)), FlowPlace(d.flows, FlowId(d, b));
    a.priority < b.priority || (a.priority == b.priority && (x < y || (x == y && ByName(a, b))))
  }

  function QueueOrder(d: Draft): (Person, Person) -> bool {
    (a, b) => InQueue(d, a, b)
  }

  lemma {:induction false} QueueOrderIsTotal(d: Draft)
    ensures TotalOrder(QueueOrder(d))
  {
  }

  // ---------------------------------------------------------------- dealing people to FOs

  function Position(fos: seq<Quota>, id: Id): (r: Option<nat>)
    ensures r.Some? ==> r.value < |fos| && fos[r.value].id == id
    ensures r.None? ==> forall i :: 0 <= i < |fos| ==> fos[i].id != id
  {
    if fos == [] then None
    else if fos[|fos| - 1].id == id then Some(|fos| - 1)
    else Position(fos[..|fos| - 1], id)
  }

  /** The FO a CRM member is: the last one listed, as a map built from a list keeps. */
  function FoOfMember(fos: seq<Fo>, member: Id): Option<Id> {
    if fos == [] then None
    else if fos[|fos| - 1].member == Some(member) then Some(fos[|fos| - 1].id)
    else FoOfMember(fos[..|fos| - 1], member)
  }

  /** The queue an owned person belongs to, if their owner is on the team. */
  function OwnersQueue(d: Draft, fos: seq<Fo>, p: Person): (r: Option<nat>)
    requires p.owner.Some?
    ensures r.Some? ==> r.value < |d.fos|
  {
    var fo := FoOfMember(fos, p.owner.value);
    if fo.None? then None else Position(d.fos, fo.value)
  }

  /** Queues in the order of the draft's FOs. */
  type Roster = seq<seq<Person>>

  /** FO `i` has less per new person a day than FO `j`; ties go to the lower id. */
  predicate Lighter(d: Draft, roster: Roster, i: nat, j: nat)
    requires |roster| == |d.fos| && i < |d.fos| && j < |d.fos|
  {
    var a, b := |roster[i]| * d.fos[j].batchSize, |roster[j]| * d.fos[i].batchSize;
    a < b || (a == b && d.fos[i].id < d.fos[j].id)
  }

  function Lightest(d: Draft, roster: Roster, n: nat): (i: nat)
    requires |roster| == |d.fos| && 1 <= n <= |d.fos|
    ensures i < n
  {
    if n == 1 then 0
    else
      var best := Lightest(d, roster, n - 1);
      if Lighter(d, roster, n - 1, best) then n - 1 else best
  }

  /** The queue an unowned person joins: as pinned, otherwise the lightest. */
  function FreeQueue(d: Draft, roster: Roster, p: Person): (i: nat)
    requires |roster| == |d.fos| && |d.fos| >= 1
    ensures i < |d.fos|
  {
    if p.id in d.pins && Position(d.fos, d.pins[p.id]).Some? then Position(d.fos, d.pins[p.id]).value
    else Lightest(d, roster, |d.fos|)
  }

  /** Owners first: each owned person to their owner's queue; `stray` are those whose owner is not on the team. */
  function DealOwned(d: Draft, fos: seq<Fo>, people: seq<Person>, roster: Roster): (r: (Roster, seq<Person>))
    requires |roster| == |d.fos|
    ensures |r.0| == |d.fos|
  {
    if people == [] then (roster, [])
    else
      var p := people[|people| - 1];
      var (before, stray) := DealOwned(d, fos, people[..|people| - 1], roster);
      if p.owner.None? then (before, stray)
      else
        var q := OwnersQueue(d, fos, p);
        if q.None? then (before, stray + [p]) else (before[q.value := before[q.value] + [p]], stray)
  }

  function DealFree(d: Draft, people: seq<Person>, roster: Roster): (r: Roster)
    requires |roster| == |d.fos| && |d.fos| >= 1
    ensures |r| == |d.fos|
  {
    if people == [] then roster
    else
      var p := people[|people| - 1];
      var before := DealFree(d, people[..|people| - 1], roster);
      if p.owner.Some? then before
      else
        var q := FreeQueue(d, before, p);
        before[q := before[q] + [p]]
  }

  datatype Queued = Queued(roster: Roster, stray: seq<Person>)

  function QueuesOf(d: Draft, people: seq<Person>, fos: seq<Fo>): (q: Queued)
    requires ValidDraft(d)
    ensures |q.roster| == |d.fos|
  {
    var ordered := Sort(ByName, people);
    var (owned, stray) := DealOwned(d, fos, ordered, seq(|d.fos|, _ => []));
    var dealt := DealFree(d, ordered, owned);
    Queued(seq(|d.fos|, i requires 0 <= i < |dealt| => Sort(QueueOrder(d), dealt[i])), stray)
  }

  /** campaignQueues: two passes that push people onto their FO's list, then a sort of each list. */
  method CampaignQueues(d: Draft, people: seq<Person>, fos: seq<Fo>) returns (q: Queued)
    requires ValidDraft(d)
    ensures q == QueuesOf(d, people, fos)
  {
    hide ValidFlow, Lightest, Lighter;
    var ordered := Sort(ByName, people);
    var empty: Roster := seq(|d.fos|, _ => []);
    var roster, stray := empty, [];
    for n := 0 to |ordered|
      invariant |roster| == |d.fos|
      invariant (roster, stray) == DealOwned(d, fos, ordered[..n], empty)
    {
      var p := ordered[n];
      assert ordered[..n + 1][..n] == ordered[..n];
      if p.owner.Some? {
        var at := OwnersQueue(d, fos, p);
        if at.None? {
          stray := stray + [p];
        } else {
          roster := roster[at.value := roster[at.value] + [p]];
        }
      }
    }
    assert ordered[..|ordered|] == ordered;
    ghost var owned := roster;
    for n := 0 to |ordered|
      invariant |roster| == |d.fos|
      invariant roster == DealFree(d, ordered[..n], owned)
    {
      var p := ordered[n];
      assert ordered[..n + 1][..n] == ordered[..n];
      if p.owner.None? {
        var at := FreeQueue(d, roster, p);
        roster := roster[at := roster[at] + [p]];
      }
    }
    q := Queued(seq(|d.fos|, i requires 0 <= i < |roster| => Sort(QueueOrder(d), roster[i])), stray);
  }

  // ---------------------------------------------------------------- nobody lost, nobody misplaced

  function Everyone(roster: Roster): seq<Person> {
    if roster == [] then [] else Everyone(roster[..|roster| - 1]) + roster[|roster| - 1]
  }

  lemma {:induction false} EveryoneGrows(roster: Roster, i: nat, queue: seq<Person>, p: Person)
    requires i < |roster| && multiset(queue) == multiset(roster[i]) + multiset{p}
    ensures multiset(Everyone(roster[i := queue])) == multiset(Everyone(roster)) + multiset{p}
  {
    var n := |roster| - 1;
    if i == n {
      assert roster[i := queue][..n] == roster[..n];
    } else {
      EveryoneGrows(roster[..n], i, queue, p);
      assert roster[i := queue][..n] == roster[..n][i := queue];
    }
  }

  lemma {:induction false} EveryoneSame(a: Roster, b: Roster)
    requires |a| == |b| && forall i :: 0 <= i < |a| ==> multiset(a[i]) == multiset(b[i])
    ensures multiset(Everyone(a)) == multiset(Everyone(b))
  {
    if a != [] {
      EveryoneSame(a[..|a| - 1], b[..|b| - 1]);
    }
  }

  lemma {:induction false} EveryoneNone(n: nat)
    ensures Everyone(seq(n, _ => [])) == []
  {
    if n > 0 {
      var r: Roster := seq(n, _ => []);
      assert r[..n - 1] == seq(n - 1, _ => []);
      EveryoneNone(n - 1);
    }
  }

  function Owned(people: seq<Person>): seq<Person> {
    if people == [] then []
    else Owned(people[..|people| - 1]) + (if people[|people| - 1].owner.Some? then [people[|people| - 1]] else [])
  }

  lemma {:induction false} Appended(s: seq<Person>, p: Person)
    ensures multiset(s + [p]) == multiset(s) + multiset{p}
  {
  }

  lemma {:induction false} OwnedStep(people: seq<Person>)
    requires people != []
    ensures var n := |people| - 1;
      if people[n].owner.Some? then multiset(Owned(people)) == multiset(Owned(people[..n])) + multiset{people[n]}
      else Owned(people) == Owned(people[..n])
  {
    Appended(Owned(people[..|people| - 1]), people[|people| - 1]);
  }

  /** One more person on both sides. */
  lemma {:induction false} OneMore(a: multiset<Person>, b: multiset<Person>, c: multiset<Person>, e: multiset<Person>, p: Person)
    requires a + b == c + e
    ensures a + (b + multiset{p}) == c + (e + multiset{p})
    ensures (a + multiset{p}) + b == c + (e + multiset{p})
  {
    assert a + (b + multiset{p}) == (a + b) + multiset{p};
    assert (a + multiset{p}) + b == (a + b) + multiset{p};
    assert c + (e + multiset{p}) == (c + e) + multiset{p};
  }

  /** Owned people are dealt or reported, never both and never lost. */
  lemma {:induction false} OwnedAreDealt(d: Draft, fos: seq<Fo>, people: seq<Person>, roster: Roster)
    requires |roster| == |d.fos|
    ensures var (r, stray) := DealOwned(d, fos, people, roster);
      multiset(Everyone(r)) + multiset(stray) == multiset(Everyone(roster)) + multiset(Owned(people))
  {
    hide OwnersQueue, Owned, Everyone;
    if people == [] {
      OwnedNone(people);
    } else {
      var n := |people| - 1;
      OwnedAreDealt(d, fos, people[..n], roster);
      var (before, stray) := DealOwned(d, fos, people[..n], roster);
      var p := people[n];
      OwnedStep(people);
      OneMore(multiset(Everyone(before)), multiset(stray), multiset(Everyone(roster)), multiset(Owned(people[..n])), p);
      if p.owner.Some? {
        var q := OwnersQueue(d, fos, p);
        if q.Some? {
          Appended(before[q.value], p);
          EveryoneGrows(before, q.value, before[q.value] + [p], p);
        } else {
          Appended(stray, p);
        }
      }
    }
  }

  lemma {:induction false} OwnedNone(people: seq<Person>)
    requires people == []
    ensures Owned(people) == []
  {
  }

  lemma {:induction false} FreeAreDealt(d: Draft, people: seq<Person>, roster: Roster)
    requires |roster| == |d.fos| && |d.fos| >= 1
    ensures multiset(Everyone(DealFree(d, people, roster))) + multiset(Owned(people)) == multiset(Everyone(roster)) + multiset(people)
  {
    hide FreeQueue, Owned, Everyone;
    if people == [] {
      OwnedNone(people);
    } else {
      var n := |people| - 1;
      FreeAreDealt(d, people[..n], roster);
      var before := DealFree(d, people[..n], roster);
      var p := people[n];
      assert people == people[..n] + [p];
      Appended(people[..n], p);
      OwnedStep(people);
      OneMore(multiset(Everyone(before)), multiset(Owned(people[..n])), multiset(Everyone(roster)), multiset(people[..n]), p);
      if p.owner.None? {
        var q := FreeQueue(d, before, p);
        Appended(before[q], p);
        EveryoneGrows(before, q, before[q] + [p], p);
      }
    }
  }

  /** Unless someone's owner is outside the team, the queues hold everyone exactly once. */
  lemma {:induction false} QueuesKeepEveryone(d: Draft, people: seq<Person>, fos: seq<Fo>)
    requires ValidDraft(d)
    ensures var q := QueuesOf(d, people, fos);
      multiset(Everyone(q.roster)) + multiset(q.stray) == multiset(people)
  {
    hide ValidFlow, ValidDraft, DealOwned, DealFree, Everyone, Owned, InQueue, Sort;
    var ordered := Sort(ByName, people);
    SortKeeps(ByName, people);
    EveryoneNone(|d.fos|);
    AtLeastOneFo(d);
    OwnedAreDealt(d, fos, ordered, seq(|d.fos|, _ => []));
    var (owned, stray) := DealOwned(d, fos, ordered, seq(|d.fos|, _ => []));
    FreeAreDealt(d, ordered, owned);
    var dealt := DealFree(d, ordered, owned);
    var q := QueuesOf(d, people, fos);
    forall i | 0 <= i < |dealt|
      ensures multiset(q.roster[i]) == multiset(dealt[i])
    {
      SortKeeps(QueueOrder(d), dealt[i]);
    }
    EveryoneSame(q.roster, dealt);
    Cancel(multiset(Everyone(dealt)), multiset(stray), multiset(Everyone(owned)), multiset(Owned(ordered)), multiset(ordered));
  }

  lemma {:induction false} Cancel(dealt: multiset<Person>, stray: multiset<Person>, owned: multiset<Person>, owners: multiset<Person>, all: multiset<Person>)
    requires owned + stray == owners && dealt + owners == owned + all
    ensures dealt + stray == all
  {
    forall p
      ensures (dealt + stray)[p] == all[p]
    {
      assert (dealt + owners)[p] == (owned + all)[p];
    }
  }

  lemma {:induction false} AtLeastOneFo(d: Draft)
    requires ValidDraft(d)
    ensures |d.fos| >= 1
  {
  }

  /** An owned person is only ever in their owner's queue; a pinned one only in the queue they are pinned to. */
  ghost predicate Rightful(d: Draft, fos: seq<Fo>, roster: Roster)
    requires |roster| == |d.fos|
  {
    forall i :: 0 <= i < |roster| ==> forall p :: p in roster[i] ==> RightfulIn(d, fos, i, p)
  }

  ghost predicate RightfulIn(d: Draft, fos: seq<Fo>, i: nat, p: Person) {
    && (p.owner.Some? ==> OwnersQueue(d, fos, p) == Some(i))
    && (p.owner.None? && p.id in d.pins && Position(d.fos, d.pins[p.id]).Some? ==> Position(d.fos, d.pins[p.id]) == Some(i))
  }

  lemma {:induction false} DealOwnedRightful(d: Draft, fos: seq<Fo>, people: seq<Person>, roster: Roster)
    requires |roster| == |d.fos| && Rightful(d, fos, roster)
    ensures Rightful(d, fos, DealOwned(d, fos, people, roster).0)
  {
    hide RightfulIn;
    if people != [] {
      var p := people[|people| - 1];
      DealOwnedRightful(d, fos, people[..|people| - 1], roster);
      if p.owner.Some? && OwnersQueue(d, fos, p).Some? {
        OwnerIsRightful(d, fos, p);
      }
    }
  }

  lemma {:induction false} OwnerIsRightful(d: Draft, fos: seq<Fo>, p: Person)
    requires p.owner.Some? && OwnersQueue(d, fos, p).Some?
    ensures RightfulIn(d, fos, OwnersQueue(d, fos, p).value, p)
  {
  }

  lemma {:induction false} DealFreeRightful(d: Draft, fos: seq<Fo>, people: seq<Person>, roster: Roster)
    requires |roster| == |d.fos| && |d.fos| >= 1 && Rightful(d, fos, roster)
    ensures Rightful(d, fos, DealFree(d, people, roster))
  {
    if people != [] {
      DealFreeRightful(d, fos, people[..|people| - 1], roster);
    }
  }

  /** Ownership is kept, pins are kept, and each queue runs highest priority first. */
  lemma {:induction false} QueuesAreRightful(d: Draft, people: seq<Person>, fos: seq<Fo>)
    requires ValidDraft(d)
    ensures var q := QueuesOf(d, people, fos);
      && Rightful(d, fos, q.roster)
      && forall i :: 0 <= i < |q.roster| ==> SortedBy(QueueOrder(d), q.roster[i])
  {
    hide ValidFlow, ValidDraft, DealOwned, DealFree, RightfulIn, InQueue;
    AtLeastOneFo(d);
    var ordered := Sort(ByName, people);
    var empty: Roster := seq(|d.fos|, _ => []);
    DealOwnedRightful(d, fos, ordered, empty);
    var owned := DealOwned(d, fos, ordered, empty).0;
    DealFreeRightful(d, fos, ordered, owned);
    var dealt := DealFree(d, ordered, owned);
    var q := QueuesOf(d, people, fos);
    QueueOrderIsTotal(d);
    forall i | 0 <= i < |dealt|
      ensures SortedBy(QueueOrder(d), q.roster[i])
      ensures forall p :: p in q.roster[i] ==> p in dealt[i]
    {
      SortSorts(QueueOrder(d), dealt[i]);
      SortKeeps(QueueOrder(d), dealt[i]);
      SamePeople(q.roster[i], dealt[i]);
    }
  }

  lemma {:induction false} SamePeople(a: seq<Person>, b: seq<Person>)
    requires multiset(a) == multiset(b)
    ensures forall p :: p in a ==> p in b
  {
    forall p | p in a
      ensures p in b
    {
      assert p in multiset(a);
    }
  }

  // ---------------------------------------------------------------- owners, by the team's members

  /** Entry `k` of the team is the one that counts for this member: theirs, and the last that is. */
  predicate CountsFor(fos: seq<Fo>, k: nat, member: Option<Id>) {
    k < |fos| && fos[k].member == member && forall j :: k < j < |fos| ==> fos[j].member != member
  }

  /** The draft lists this FO. */
  predicate Lists(d: Draft, id: Id) {
    exists i :: 0 <= i < |d.fos| && d.fos[i].id == id
  }

  /** This person's owner is on the team and in the draft. */
  ghost predicate OwnerServes(d: Draft, fos: seq<Fo>, p: Person) {
    exists k: nat :: CountsFor(fos, k, p.owner) && Lists(d, fos[k].id)
  }

  predicate DistinctMembers(fos: seq<Fo>) {
    forall j, k :: 0 <= j < k < |fos| && fos[j].member.Some? ==> fos[j].member != fos[k].member
  }

  lemma {:induction false} FoOfMemberExact(fos: seq<Fo>, member: Id)
    ensures var r := FoOfMember(fos, member);
      && (r.Some? ==> exists k: nat :: CountsFor(fos, k, Some(member)) && fos[k].id == r.value)
      && (r.None? ==> forall k :: 0 <= k < |fos| ==> fos[k].member != Some(member))
  {
    if fos != [] {
      var n := |fos| - 1;
      if fos[n].member == Some(member) {
        assert CountsFor(fos, n, Some(member));
      } else {
        FoOfMemberExact(fos[..n], member);
        if FoOfMember(fos[..n], member).Some? {
          var k: nat :| CountsFor(fos[..n], k, Some(member)) && fos[..n][k].id == FoOfMember(fos[..n], member).value;
          assert CountsFor(fos, k, Some(member));
        }
      }
    }
  }

  lemma {:induction false} OneCounts(fos: seq<Fo>, j: nat, k: nat, member: Option<Id>)
    requires CountsFor(fos, j, member) && CountsFor(fos, k, member)
    ensures j == k
  {
  }

  /** An owned person has a queue exactly when their owner serves, and it is that FO's. */
  lemma {:induction false} OwnersQueueExact(d: Draft, fos: seq<Fo>, p: Person)
    requires p.owner.Some?
    ensures OwnersQueue(d, fos, p).Some? <==> OwnerServes(d, fos, p)
    ensures OwnersQueue(d, fos, p).Some? ==> exists k: nat :: CountsFor(fos, k, p.owner) && fos[k].id == d.fos[OwnersQueue(d, fos, p).value].id
  {
    hide FoOfMember, Position;
    FoOfMemberExact(fos, p.owner.value);
    var r := FoOfMember(fos, p.owner.value);
    if r.Some? {
      var k: nat :| CountsFor(fos, k, p.owner) && fos[k].id == r.value;
      forall j: nat | CountsFor(fos, j, p.owner)
        ensures j == k
      {
        OneCounts(fos, j, k, p.owner);
      }
    } else {
      forall j: nat
        ensures !CountsFor(fos, j, p.owner)
      {
        NobodyCounts(fos, j, p.owner);
      }
    }
  }

  lemma {:induction false} NobodyCounts(fos: seq<Fo>, j: nat, member: Option<Id>)
    requires forall k :: 0 <= k < |fos| ==> fos[k].member != member
    ensures !CountsFor(fos, j, member)
  {
  }

  /** Exactly those whose owner does not serve are strays, as often as they are listed. */
  lemma {:induction false} StraysExact(d: Draft, fos: seq<Fo>, people: seq<Person>, roster: Roster, p: Person)
    requires |roster| == |d.fos|
    ensures multiset(DealOwned(d, fos, people, roster).1)[p] == if p.owner.Some? && OwnersQueue(d, fos, p).None? then multiset(people)[p] else 0
  {
    hide OwnersQueue;
    if people != [] {
      var n := |people| - 1;
      StraysExact(d, fos, people[..n], roster, p);
      assert people == people[..n] + [people[n]];
    }
  }

  /**
   * Owned contacts, in terms of the team's members alone: whoever is in an FO's queue is that FO's,
   * and those reported as having an owner outside the team are exactly those whose owner is nobody
   * who serves. With members listed once each, any entry of the team decides.
   */
  lemma {:induction false} OwnersDecide(d: Draft, people: seq<Person>, fos: seq<Fo>)
    requires ValidDraft(d)
    ensures var q := QueuesOf(d, people, fos);
      && (forall i: nat, p :: 0 <= i < |q.roster| && p in q.roster[i] && p.owner.Some? ==>
            exists k: nat :: CountsFor(fos, k, p.owner) && fos[k].id == d.fos[i].id)
      && (forall p :: multiset(q.stray)[p] == if p.owner.Some? && !OwnerServes(d, fos, p) then multiset(people)[p] else 0)
      && (DistinctMembers(fos) ==> forall p :: p in q.stray <==>
            p in people && p.owner.Some? && !exists k: nat :: 0 <= k < |fos| && fos[k].member == p.owner && Lists(d, fos[k].id))
  {
    hide ValidDraft, ValidFlow, DealOwned, DealFree, OwnersQueue, OwnerServes, InQueue, Sort, Lists, DistinctMembers;
    var q := QueuesOf(d, people, fos);
    QueuesAreRightful(d, people, fos);
    forall i: nat, p | 0 <= i < |q.roster| && p in q.roster[i] && p.owner.Some?
      ensures exists k: nat :: CountsFor(fos, k, p.owner) && fos[k].id == d.fos[i].id
    {
      assert RightfulIn(d, fos, i, p);
      OwnersQueueExact(d, fos, p);
    }
    var ordered := Sort(ByName, people);
    SortKeeps(ByName, people);
    forall p
      ensures multiset(q.stray)[p] == if p.owner.Some? && !OwnerServes(d, fos, p) then multiset(people)[p] else 0
    {
      StraysExact(d, fos, ordered, seq(|d.fos|, _ => []), p);
      if p.owner.Some? {
        OwnersQueueExact(d, fos, p);
      }
    }
    if DistinctMembers(fos) {
      forall p
        ensures p in q.stray <==> p in people && p.owner.Some? && !exists k: nat :: 0 <= k < |fos| && fos[k].member == p.owner && Lists(d, fos[k].id)
      {
        assert p in q.stray <==> multiset(q.stray)[p] > 0;
        assert p in people <==> multiset(people)[p] > 0;
        if p.owner.Some? {
          AnyEntryDecides(d, fos, p);
        }
      }
    }
  }

  lemma {:induction false} AnyEntryDecides(d: Draft, fos: seq<Fo>, p: Person)
    requires DistinctMembers(fos) && p.owner.Some?
    ensures OwnerServes(d, fos, p) <==> exists k: nat :: 0 <= k < |fos| && fos[k].member == p.owner && Lists(d, fos[k].id)
  {
    hide Lists;
    if k: nat :| 0 <= k < |fos| && fos[k].member == p.owner && Lists(d, fos[k].id) {
      assert CountsFor(fos, k, p.owner);
    }
  }

  /** Within a queue: priority, then the outreach's place in the draft, then name, then id. */
  lemma {:induction false} QueueRunsInOrder(d: Draft, people: seq<Person>, fos: seq<Fo>, i: nat, x: nat, y: nat)
    requires ValidDraft(d) && i < |d.fos| && x < y < |QueuesOf(d, people, fos).roster[i]|
    ensures var a, b := QueuesOf(d, people, fos).roster[i][x], QueuesOf(d, people, fos).roster[i][y];
      && a.priority <= b.priority
      && (a.priority == b.priority ==> FlowPlace(d.flows, FlowId(d, a)) <= FlowPlace(d.flows, FlowId(d, b)))
      && (a.priority == b.priority && FlowPlace(d.flows, FlowId(d, a)) == FlowPlace(d.flows, FlowId(d, b)) ==>
            a.name < b.name || (a.name == b.name && a.id <= b.id))
  {
    hide ValidDraft, QueuesOf, FlowPlace, FlowId;
    QueuesAreRightful(d, people, fos);
    var queue := QueuesOf(d, people, fos).roster[i];
    assert QueueOrder(d)(queue[x], queue[y]);
  }

  /** No two of these contacts share an id, and none is listed twice. */
  ghost predicate OnePerId(all: multiset<Person>) {
    && (forall p, q :: p in all && q in all && p.id == q.id ==> p == q)
    && forall p :: all[p] <= 1
  }

  lemma {:induction false} ByNameIsTotal()
    ensures TotalOrder(ByName)
  {
  }

  /** The queues do not depend on the order people are listed in. */
  lemma {:induction false} ListingOrderIsIdle(d: Draft, a: seq<Person>, b: seq<Person>, fos: seq<Fo>)
    requires ValidDraft(d) && multiset(a) == multiset(b) && OnePerId(multiset(a))
    ensures QueuesOf(d, a, fos) == QueuesOf(d, b, fos)
  {
    hide ValidDraft, DealOwned, DealFree, QueueOrder, Sort, ByName;
    ByNameIsTotal();
    var x, y := Sort(ByName, a), Sort(ByName, b);
    SortKeeps(ByName, a);
    SortKeeps(ByName, b);
    SortSorts(ByName, a);
    SortSorts(ByName, b);
    forall p, q | p in x && q in x && ByName(p, q) && ByName(q, p)
      ensures p == q
    {
      assert p in multiset(x) && q in multiset(x);
      SameNamePlace(p, q);
    }
    OneSorting(ByName, x, y);
  }

  lemma {:induction false} SameNamePlace(p: Person, q: Person)
    requires ByName(p, q) && ByName(q, p)
    ensures p.id == q.id
  {
  }

  // ---------------------------------------------------------------- unowned people are shared out fairly

  /** a per x is no more than b per y, and b per y than c per z. */
  lemma {:induction false} RatiosChain(a: nat, x: nat, b: nat, y: nat, c: nat, z: nat)
    requires y >= 1 && a * y <= b * x && b * z <= c * y
    ensures a * z <= c * x
  {
    Scale(a * y, b * x, z);
    Scale(b * z, c * y, x);
    assert (a * y) * z == (a * z) * y && (b * x) * z == (b * z) * x && (c * y) * x == (c * x) * y;
    var e := c * x - a * z;
    assert e * y == (c * x) * y - (a * z) * y;
    NegativeTimes(e, y);
  }

  lemma {:induction false} NegativeTimes(e: int, y: nat)
    requires y >= 1
    ensures e < 0 ==> e * y < 0
  {
    if y > 1 {
      NegativeTimes(e, y - 1);
      assert e * y == e * (y - 1) + e;
    }
  }

  lemma {:induction false} Scale(a: nat, b: nat, k: nat)
    requires a <= b
    ensures a * k <= b * k
  {
    assert b * k - a * k == (b - a) * k;
  }

  /** FO `i` has no more per new person a day than FO `j`. */
  predicate NoHeavier(d: Draft, roster: Roster, i: nat, j: nat)
    requires |roster| == |d.fos| && i < |d.fos| && j < |d.fos|
  {
    |roster[i]| * d.fos[j].batchSize <= |roster[j]| * d.fos[i].batchSize
  }

  /** The FO an unowned person joins has the least per new person a day, and the lowest id of those. */
  lemma {:induction false} LightestIsLeast(d: Draft, roster: Roster, n: nat)
    requires ValidDraft(d) && |roster| == |d.fos| && 1 <= n <= |d.fos|
    ensures var i := Lightest(d, roster, n);
      forall j :: 0 <= j < n ==> NoHeavier(d, roster, i, j) && (NoHeavier(d, roster, j, i) ==> d.fos[i].id <= d.fos[j].id)
  {
    hide ValidFlow;
    var i := Lightest(d, roster, n);
    if n > 1 {
      var best := Lightest(d, roster, n - 1);
      LightestIsLeast(d, roster, n - 1);
      forall j | 0 <= j < n
        ensures NoHeavier(d, roster, i, j) && (NoHeavier(d, roster, j, i) ==> d.fos[i].id <= d.fos[j].id)
      {
        if j < n - 1 {
          RatiosChain(|roster[i]|, d.fos[i].batchSize, |roster[best]|, d.fos[best].batchSize, |roster[j]|, d.fos[j].batchSize);
          if NoHeavier(d, roster, j, i) {
            RatiosChain(|roster[j]|, d.fos[j].batchSize, |roster[i]|, d.fos[i].batchSize, |roster[best]|, d.fos[best].batchSize);
            RatiosChain(|roster[best]|, d.fos[best].batchSize, |roster[j]|, d.fos[j].batchSize, |roster[i]|, d.fos[i].batchSize);
          }
        }
      }
    }
  }

  /** Less one person, FO `i` is no heavier than FO `j`. */
  predicate AtMostOneAhead(d: Draft, roster: Roster, i: nat, j: nat)
    requires |roster| == |d.fos| && i < |d.fos| && j < |d.fos|
  {
    (|roster[i]| - 1) * d.fos[j].batchSize <= |roster[j]| * d.fos[i].batchSize
  }

  /** Giving one more to an FO nobody is lighter than keeps everyone at most one ahead. */
  lemma {:induction false} OneMoreIsFair(d: Draft, before: Roster, q: nat, i: nat, j: nat, p: Person)
    requires |before| == |d.fos| && q < |d.fos| && i < |d.fos| && j < |d.fos|
    requires if i == q then NoHeavier(d, before, q, j) else AtMostOneAhead(d, before, i, j)
    ensures AtMostOneAhead(d, before[q := before[q] + [p]], i, j)
  {
    Scale(|before[j]|, if j == q then |before[j]| + 1 else |before[j]|, d.fos[i].batchSize);
  }

  lemma {:induction false} DealtFairly(d: Draft, people: seq<Person>, roster: Roster)
    requires ValidDraft(d) && |roster| == |d.fos| && d.pins == map[]
    ensures |d.fos| >= 1
    ensures var r := DealFree(d, people, roster);
      && (forall i :: 0 <= i < |r| ==> roster[i] <= r[i])
      && forall i, j :: 0 <= i < |r| && 0 <= j < |r| && r[i] != roster[i] ==> AtMostOneAhead(d, r, i, j)
  {
    hide ValidFlow, Lightest, ValidDraft, AtMostOneAhead, NoHeavier;
    AtLeastOneFo(d);
    if people != [] {
      var n := |people| - 1;
      DealtFairly(d, people[..n], roster);
      var before := DealFree(d, people[..n], roster);
      if people[n].owner.None? {
        var q := Lightest(d, before, |d.fos|);
        LightestIsLeast(d, before, |d.fos|);
        forall i, j | 0 <= i < |before| && 0 <= j < |before| && (i == q || before[i] != roster[i])
          ensures AtMostOneAhead(d, DealFree(d, people, roster), i, j)
        {
          OneMoreIsFair(d, before, q, i, j, people[n]);
        }
      }
    }
  }

  lemma {:induction false} DealtOwnedAreOwned(d: Draft, fos: seq<Fo>, people: seq<Person>, roster: Roster)
    requires |roster| == |d.fos| && forall i, p :: 0 <= i < |roster| && p in roster[i] ==> p.owner.Some?
    ensures forall i, p :: 0 <= i < |roster| && p in DealOwned(d, fos, people, roster).0[i] ==> p.owner.Some?
  {
    hide OwnersQueue;
    if people != [] {
      DealtOwnedAreOwned(d, fos, people[..|people| - 1], roster);
    }
  }

  /**
   * Unowned contacts are shared out by pace: without pins, an FO who got any of them is at most one
   * contact ahead of what any other FO's share would allow.
   */
  lemma {:induction false} UnownedAreShared(d: Draft, people: seq<Person>, fos: seq<Fo>, i: nat, j: nat, p: Person)
    requires ValidDraft(d) && d.pins == map[] && i < |d.fos| && j < |d.fos|
    requires p in QueuesOf(d, people, fos).roster[i] && p.owner.None?
    ensures AtMostOneAhead(d, QueuesOf(d, people, fos).roster, i, j)
  {
    hide ValidFlow, ValidDraft, DealOwned, DealFree, InQueue, Sort, AtMostOneAhead;
    AtLeastOneFo(d);
    var ordered := Sort(ByName, people);
    var empty: Roster := seq(|d.fos|, _ => []);
    DealtOwnedAreOwned(d, fos, ordered, empty);
    var owned := DealOwned(d, fos, ordered, empty).0;
    DealtFairly(d, ordered, owned);
    var dealt := DealFree(d, ordered, owned);
    SortKeeps(QueueOrder(d), dealt[i]);
    SamePeople(QueuesOf(d, people, fos).roster[i], dealt[i]);
    assert dealt[i] != owned[i];
    var q := QueuesOf(d, people, fos);
    assert |q.roster[i]| == |dealt[i]| && |q.roster[j]| == |dealt[j]|;
    SameLoads(d, dealt, q.roster, i, j);
  }

  lemma {:induction false} SameLoads(d: Draft, a: Roster, b: Roster, i: nat, j: nat)
    requires |a| == |b| == |d.fos| && i < |d.fos| && j < |d.fos| && |a[i]| == |b[i]| && |a[j]| == |b[j]|
    requires AtMostOneAhead(d, a, i, j)
    ensures AtMostOneAhead(d, b, i, j)
  {
  }

  // ---------------------------------------------------------------- batches

  datatype Batch = Batch(flow: Id, people: seq<Person>)

  /** Consecutive people on one outreach, at most `size` to a batch. */
  function Batches(d: Draft, queue: seq<Person>, size: nat): seq<Batch> {
    if queue == [] then []
    else
      var p := queue[|queue| - 1];
      var before := Batches(d, queue[..|queue| - 1], size);
      if before != [] && before[|before| - 1].flow == FlowId(d, p) && |before[|before| - 1].people| < size then
        before[|before| - 1 := before[|before| - 1].(people := before[|before| - 1].people + [p])]
      else before + [Batch(FlowId(d, p), [p])]
  }

  /** campaignBatches, one FO: walk the queue, filling the last batch while it takes the person. */
  method CampaignBatches(d: Draft, queue: seq<Person>, size: nat) returns (batches: seq<Batch>)
    ensures batches == Batches(d, queue, size)
  {
    batches := [];
    for n := 0 to |queue|
      invariant batches == Batches(d, queue[..n], size)
    {
      assert queue[..n + 1][..n] == queue[..n];
      var p := queue[n];
      var last := |batches| - 1;
      if last >= 0 && batches[last].flow == FlowId(d, p) && |batches[last].people| < size {
        batches := batches[last := batches[last].(people := batches[last].people + [p])];
      } else {
        batches := batches + [Batch(FlowId(d, p), [p])];
      }
    }
    assert queue[..|queue|] == queue;
  }

  function People(batches: seq<Batch>): seq<Person> {
    if batches == [] then [] else People(batches[..|batches| - 1]) + batches[|batches| - 1].people
  }

  /** Batches cut the queue into consecutive pieces, ... */
  lemma {:induction false} BatchesCutTheQueue(d: Draft, queue: seq<Person>, size: nat)
    ensures People(Batches(d, queue, size)) == queue
  {
    hide FlowId;
    if queue != [] {
      var n := |queue| - 1;
      BatchesCutTheQueue(d, queue[..n], size);
      var before, bs := Batches(d, queue[..n], size), Batches(d, queue, size);
      if |bs| == |before| {
        assert bs[..|bs| - 1] == before[..|bs| - 1];
        assert People(bs) == People(before) + [queue[n]];
      } else {
        assert bs[..|bs| - 1] == before;
      }
    }
  }

  ghost predicate Proper(d: Draft, size: nat, b: Batch) {
    1 <= |b.people| <= size && forall p :: p in b.people ==> FlowId(d, p) == b.flow
  }

  /** ... each on one outreach and no larger than the pace. */
  lemma {:induction false} BatchesAreProper(d: Draft, queue: seq<Person>, size: nat)
    requires size >= 1
    ensures forall i :: 0 <= i < |Batches(d, queue, size)| ==> Proper(d, size, Batches(d, queue, size)[i])
  {
    hide FlowId;
    if queue != [] {
      var p := queue[|queue| - 1];
      var before, bs := Batches(d, queue[..|queue| - 1], size), Batches(d, queue, size);
      BatchesAreProper(d, queue[..|queue| - 1], size);
      if |bs| == |before| {
        assert Proper(d, size, before[|before| - 1]);
        assert bs[|before| - 1].people == before[|before| - 1].people + [p];
      }
    }
  }

  /** Everyone in an earlier batch comes before everyone in a later one. */
  lemma {:induction false} BatchOrder(batches: seq<Batch>, i: nat, j: nat, p: Person, q: Person)
    requires i < j < |batches| && p in batches[i].people && q in batches[j].people
    ensures exists x, y :: 0 <= x < y < |People(batches)| && People(batches)[x] == p && People(batches)[y] == q
  {
    var n := |batches| - 1;
    var front, last := People(batches[..n]), batches[n].people;
    if j < n {
      BatchOrder(batches[..n], i, j, p, q);
      var x, y :| 0 <= x < y < |front| && front[x] == p && front[y] == q;
      assert People(batches)[x] == p && People(batches)[y] == q;
    } else {
      InPeople(batches[..n], i, p);
      var x :| 0 <= x < |front| && front[x] == p;
      var y :| 0 <= y < |last| && last[y] == q;
      assert People(batches)[x] == p && People(batches)[|front| + y] == q;
    }
  }

  lemma {:induction false} InPeople(batches: seq<Batch>, i: nat, p: Person)
    requires i < |batches| && p in batches[i].people
    ensures p in People(batches)
  {
    if i < |batches| - 1 {
      InPeople(batches[..|batches| - 1], i, p);
    }
  }
}
