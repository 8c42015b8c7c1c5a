/** The plan fitCampaign hands back. */
module FinalPlan {
  // src/lib/campaign-fit.ts: the kept contacts planned again with the chosen paces and outreach, and why
  // nobody is lost or moved on the way.

  import opened Days
  import opened Sorting
  import opened Placement
  import opened Starts
  import opened Room
  import opened Queues
  import Calendar
  import opened Campaign
  import opened StandIns
  import opened Trimming
  import opened Edited
  import opened Certain

  // ---------------------------------------------------------------- building the final draft

  /** Unowned contacts stay with the FO they were first dealt to. */
  function PinsOf(fos: seq<Quota>, roster: Roster): map<Id, Id>
    requires |fos| == |roster|
  {
    if roster == [] then map[]
    else PinsOf(fos[..|fos| - 1], roster[..|roster| - 1]) + PinQueue(roster[|roster| - 1], fos[|fos| - 1].id)
  }

  /** The FOs who keep anyone, at the paces chosen for them. */
  function FinalFos(fos: seq<Quota>, kept: Roster, paces: seq<nat>): seq<Quota>
    requires |fos| == |kept| == |paces|
  {
    if fos == [] then []
    else
      var n := |fos| - 1;
      FinalFos(fos[..n], kept[..n], paces[..n]) + (if kept[n] != [] then [Quota(fos[n].id, paces[n])] else [])
  }

  function KeptIds(kept: Roster): set<Id> {
    set p | p in Everyone(kept) :: p.id
  }

  function KeepPeople(people: seq<Person>, ids: set<Id>): seq<Person> {
    if people == [] then []
    else KeepPeople(people[..|people| - 1], ids) + (if people[|people| - 1].id in ids then [people[|people| - 1]] else [])
  }

  function KeepFos(fos: seq<Fo>, listed: seq<Quota>): seq<Fo> {
    if fos == [] then []
    else KeepFos(fos[..|fos| - 1], listed) + (if Position(listed, fos[|fos| - 1].id).Some? then [fos[|fos| - 1]] else [])
  }

  /** The outreach part of the result: the input's own, or what the studio built. */
  datatype Shape = Shape(flows: seq<Outreach>, assignments: map<Id, Id>)

  function FinalDraft(d: Draft, shape: Shape, roster: Roster, t: Trimmed): Draft
    requires |d.fos| == |roster| == |t.kept| == |t.paces|
  {
    var ids, fos, pins := KeptIds(t.kept), FinalFos(d.fos, t.kept, t.paces), PinsOf(d.fos, roster);
    Draft(d.start, d.end, fos, shape.flows,
      map id | id in shape.assignments && id in ids :: shape.assignments[id],
      map id | id in pins && id in ids && Position(fos, pins[id]).Some? :: pins[id])
  }

  /** What the fitter starts from: the input without its own pins. */
  function Unpinned(d: Draft): Draft {
    d.(pins := map[])
  }

  /** What holds when the final draft is put together. */
  ghost predicate Ready(d: Draft, people: seq<Person>, fos: seq<Fo>, shape: Shape, t: Trimmed) {
    && ValidDraft(Unpinned(d)) && ValidDraft(d.(flows := shape.flows, assignments := shape.assignments, pins := map[]))
    && QueuesOf(Unpinned(d), people, fos).stray == []
    && Partition(QueuesOf(Unpinned(d), people, fos).roster, t)
    && (forall i :: 0 <= i < |t.kept| && t.kept[i] != [] ==> t.paces[i] >= 1)
    && OnePerId(multiset(people)) && people != []
  }

  // ---------------------------------------------------------------- the FOs who stay

  /** The place of FO `i` among those who stay. */
  function FinalPlace(kept: Roster, i: nat): nat
    requires i <= |kept|
  {
    if i == 0 then 0 else FinalPlace(kept, i - 1) + (if kept[i - 1] != [] then 1 else 0)
  }

  lemma {:induction false} PlaceOfFront(kept: Roster, n: nat, i: nat)
    requires i <= n <= |kept|
    ensures FinalPlace(kept[..n], i) == FinalPlace(kept, i)
  {
    if i > 0 {
      PlaceOfFront(kept, n, i - 1);
    }
  }

  lemma {:induction false} PlacesGrow(kept: Roster, i: nat, j: nat)
    requires i < j <= |kept| && kept[i] != []
    ensures FinalPlace(kept, i) < FinalPlace(kept, j)
  {
    if i < j - 1 {
      PlacesGrow(kept, i, j - 1);
    }
  }

  /** Exactly the FOs who keep anyone are listed, in order, at their paces. */
  lemma {:induction false} FinalFosAt(fos: seq<Quota>, kept: Roster, paces: seq<nat>, i: nat)
    requires |fos| == |kept| == |paces| && i < |kept| && kept[i] != []
    ensures var f := FinalFos(fos, kept, paces);
      FinalPlace(kept, i) < |f| && f[FinalPlace(kept, i)] == Quota(fos[i].id, paces[i])
  {
    hide FinalPlace;
    var n := |fos| - 1;
    FinalFosCount(fos, kept, paces);
    FinalFosCount(fos[..n], kept[..n], paces[..n]);
    PlaceOfFront(kept, n, i);
    PlaceOfFront(kept, n, n);
    if i < n {
      FinalFosAt(fos[..n], kept[..n], paces[..n], i);
    }
  }

  lemma {:induction false} FinalFosCount(fos: seq<Quota>, kept: Roster, paces: seq<nat>)
    requires |fos| == |kept| == |paces|
    ensures |FinalFos(fos, kept, paces)| == FinalPlace(kept, |kept|)
  {
    if fos != [] {
      var n := |fos| - 1;
      FinalFosCount(fos[..n], kept[..n], paces[..n]);
      PlaceOfFront(kept, n, n);
    }
  }

  lemma {:induction false} FinalFosFrom(fos: seq<Quota>, kept: Roster, paces: seq<nat>, x: nat) returns (i: nat)
    requires |fos| == |kept| == |paces| && x < |FinalFos(fos, kept, paces)|
    ensures i < |kept| && kept[i] != [] && FinalPlace(kept, i) == x
  {
    hide FinalPlace;
    var n := |fos| - 1;
    FinalFosCount(fos[..n], kept[..n], paces[..n]);
    if x < |FinalFos(fos[..n], kept[..n], paces[..n])| {
      i := FinalFosFrom(fos[..n], kept[..n], paces[..n], x);
    } else {
      i := n;
    }
    PlaceOfFront(kept, n, i);
  }

  lemma {:induction false} PositionFound(fos: seq<Quota>, x: nat)
    requires x < |fos| && forall i, j :: 0 <= i < j < |fos| ==> fos[i].id != fos[j].id
    ensures Position(fos, fos[x].id) == Some(x)
  {
  }

  /** The final draft is one the planner accepts, and FO `i` is found at their new place. */
  lemma {:induction false} FinalFosStay(d: Draft, people: seq<Person>, fos: seq<Fo>, shape: Shape, t: Trimmed)
    requires Ready(d, people, fos, shape, t)
    ensures var f := FinalFos(d.fos, t.kept, t.paces);
      && (forall x :: 0 <= x < |f| ==> f[x].batchSize >= 1)
      && (forall x, y :: 0 <= x < y < |f| ==> f[x].id != f[y].id)
      && forall i :: 0 <= i < |t.kept| && t.kept[i] != [] ==> Position(f, d.fos[i].id) == Some(FinalPlace(t.kept, i))
  {
    hide ValidFlow, QueuesOf, OnePerId, FinalPlace, FinalFos, Position;
    var f := FinalFos(d.fos, t.kept, t.paces);
    forall x | 0 <= x < |f|
      ensures f[x].batchSize >= 1
      ensures forall y :: x < y < |f| ==> f[x].id != f[y].id
    {
      var i := FinalFosFrom(d.fos, t.kept, t.paces, x);
      FinalFosAt(d.fos, t.kept, t.paces, i);
      forall y | x < y < |f|
        ensures f[x].id != f[y].id
      {
        var j := FinalFosFrom(d.fos, t.kept, t.paces, y);
        FinalFosAt(d.fos, t.kept, t.paces, j);
        assert i != j;
      }
    }
    forall i | 0 <= i < |t.kept| && t.kept[i] != []
      ensures Position(f, d.fos[i].id) == Some(FinalPlace(t.kept, i))
    {
      FinalFosAt(d.fos, t.kept, t.paces, i);
      PositionFound(f, FinalPlace(t.kept, i));
    }
  }

  // ---------------------------------------------------------------- who is in a roster

  lemma {:induction false} InEveryone(roster: Roster, i: nat, p: Person)
    requires i < |roster|
    ensures multiset(roster[i])[p] <= multiset(Everyone(roster))[p]
    ensures forall j :: 0 <= j < i ==> multiset(roster[j])[p] + multiset(roster[i])[p] <= multiset(Everyone(roster))[p]
  {
    var n := |roster| - 1;
    assert multiset(Everyone(roster))[p] == multiset(Everyone(roster[..n]))[p] + multiset(roster[n])[p];
    if i < n {
      InEveryone(roster[..n], i, p);
    } else {
      forall j | 0 <= j < i
        ensures multiset(roster[j])[p] <= multiset(Everyone(roster[..n]))[p]
      {
        InEveryone(roster[..n], j, p);
      }
    }
  }

  lemma {:induction false} FromEveryone(roster: Roster, p: Person) returns (i: nat)
    requires p in Everyone(roster)
    ensures i < |roster| && p in roster[i]
  {
    var n := |roster| - 1;
    if p in roster[n] {
      i := n;
    } else {
      i := FromEveryone(roster[..n], p);
    }
  }

  lemma {:induction false} Counted1(s: seq<Person>, p: Person)
    ensures p in s <==> multiset(s)[p] >= 1
  {
    assert p in s <==> p in multiset(s);
  }

  // ---------------------------------------------------------------- pins

  lemma {:induction false} PinQueueExact(queue: seq<Person>, fo: Id, id: Id)
    ensures id in PinQueue(queue, fo) ==> PinQueue(queue, fo)[id] == fo
    ensures forall p :: p in queue && p.owner.None? && p.id == id ==> id in PinQueue(queue, fo)
  {
    if queue != [] {
      PinQueueExact(queue[..|queue| - 1], fo, id);
    }
  }

  lemma {:induction false} PinnedFrom(queue: seq<Person>, fo: Id, id: Id) returns (q: Person)
    requires id in PinQueue(queue, fo)
    ensures q in queue && q.id == id
  {
    var n := |queue| - 1;
    if queue[n].id == id {
      q := queue[n];
    } else {
      q := PinnedFrom(queue[..n], fo, id);
    }
  }

  /** Every unowned contact is pinned to the FO whose queue they are in. */
  lemma {:induction false} PinnedToOwnQueue(fos: seq<Quota>, roster: Roster, n: nat, i: nat, p: Person)
    requires i < n <= |roster| == |fos| && OnePerId(multiset(Everyone(roster)))
    requires p in roster[i] && p.owner.None?
    ensures var pins := PinsOf(fos[..n], roster[..n]); p.id in pins && pins[p.id] == fos[i].id
  {
    hide Everyone, PinQueue;
    assert fos[..n][..n - 1] == fos[..n - 1] && roster[..n][..n - 1] == roster[..n - 1];
    PinQueueExact(roster[n - 1], fos[n - 1].id, p.id);
    if i < n - 1 {
      PinnedToOwnQueue(fos, roster, n - 1, i, p);
      if p.id in PinQueue(roster[n - 1], fos[n - 1].id) {
        var q := PinnedFrom(roster[n - 1], fos[n - 1].id, p.id);
        NotInTwo(roster, i, n - 1, p, q);
      }
    }
  }

  lemma {:induction false} NotInTwo(roster: Roster, i: nat, j: nat, p: Person, q: Person)
    requires i < j < |roster| && OnePerId(multiset(Everyone(roster)))
    requires p in roster[i] && q in roster[j]
    ensures p.id != q.id
  {
    hide Everyone;
    InEveryone(roster, i, p);
    InEveryone(roster, j, q);
    InEveryone(roster, j, p);
    Counted1(roster[i], p);
    Counted1(roster[j], q);
    Counted1(roster[j], p);
  }

  // ---------------------------------------------------------------- owners

  /** Leaving out FOs who are not listed changes nothing for a member whose FO is. */
  lemma {:induction false} OwnerStays(fos: seq<Fo>, listed: seq<Quota>, member: Id)
    requires FoOfMember(fos, member).Some? && Position(listed, FoOfMember(fos, member).value).Some?
    ensures FoOfMember(KeepFos(fos, listed), member) == FoOfMember(fos, member)
  {
    hide Position;
    var n := |fos| - 1;
    var front, all := KeepFos(fos[..n], listed), KeepFos(fos, listed);
    if Position(listed, fos[n].id).Some? {
      assert all[..|all| - 1] == front && all[|all| - 1] == fos[n];
    } else {
      assert all == front;
    }
    if fos[n].member != Some(member) {
      OwnerStays(fos[..n], listed, member);
    }
  }

  // ---------------------------------------------------------------- everyone goes back to the same FO

  /** The kept contacts, in the order of the input. */
  lemma {:induction false} KeepPeopleExact(people: seq<Person>, ids: set<Id>, p: Person)
    ensures multiset(KeepPeople(people, ids))[p] == if p.id in ids then multiset(people)[p] else 0
  {
    if people != [] {
      var n := |people| - 1;
      KeepPeopleExact(people[..n], ids, p);
      assert people == people[..n] + [people[n]];
    }
  }

  lemma {:induction false} KeptIsInQueue(roster: Roster, t: Trimmed, i: nat, p: Person)
    requires Partition(roster, t) && i < |roster| && p in t.kept[i]
    ensures p in roster[i]
  {
  }

  /** People kept are people of the input. */
  lemma {:induction false} KeptAreOurs(d: Draft, people: seq<Person>, fos: seq<Fo>, shape: Shape, t: Trimmed)
    requires Ready(d, people, fos, shape, t)
    ensures multiset(Everyone(t.kept)) <= multiset(people)
    ensures multiset(Everyone(QueuesOf(Unpinned(d), people, fos).roster)) == multiset(people)
    ensures multiset(Everyone(t.kept)) + multiset(t.overflow) == multiset(people)
  {
    hide ValidDraft, QueuesOf, Everyone, OnePerId;
    QueuesKeepEveryone(Unpinned(d), people, fos);
  }

  /** The people planned again are exactly the people kept. */
  lemma {:induction false} PlannedAgainAreKept(d: Draft, people: seq<Person>, fos: seq<Fo>, shape: Shape, t: Trimmed)
    requires Ready(d, people, fos, shape, t)
    ensures multiset(KeepPeople(people, KeptIds(t.kept))) == multiset(Everyone(t.kept))
  {
    hide ValidDraft, QueuesOf, Everyone, Partition, KeepPeople;
    KeptAreOurs(d, people, fos, shape, t);
    var all, kept, again := multiset(people), multiset(Everyone(t.kept)), multiset(KeepPeople(people, KeptIds(t.kept)));
    forall p
      ensures again[p] == kept[p]
    {
      KeepPeopleExact(people, KeptIds(t.kept), p);
      Counted1(Everyone(t.kept), p);
      if p.id in KeptIds(t.kept) {
        var q :| q in Everyone(t.kept) && q.id == p.id;
        Counted1(Everyone(t.kept), q);
        assert q in all;
      }
    }
  }

  /** Where the final draft sends a contact FO `i` keeps: to FO `i`, by owner or by pin. */
  lemma {:induction false} KeptReturns(d: Draft, people: seq<Person>, fos: seq<Fo>, shape: Shape, t: Trimmed, i: nat, j: nat, p: Person)
    requires Ready(d, people, fos, shape, t) && i < |t.kept| && p in t.kept[i]
    requires var roster := QueuesOf(Unpinned(d), people, fos).roster;
      var f := FinalDraft(d, shape, roster, t);
      RightfulIn(f, KeepFos(fos, f.fos), j, p)
    ensures j == FinalPlace(t.kept, i)
  {
    hide ValidDraft, QueuesOf, Everyone, Position, FoOfMember, KeepFos, FinalFos, PinsOf, FinalPlace;
    var roster := QueuesOf(Unpinned(d), people, fos).roster;
    var f := FinalDraft(d, shape, roster, t);
    FinalFosStay(d, people, fos, shape, t);
    KeptIsInQueue(roster, t, i, p);
    if p.owner.Some? {
      QueuesAreRightful(Unpinned(d), people, fos);
      OwnersFo(d, fos, roster, i, p);
      OwnerStays(fos, f.fos, p.owner.value);
    } else {
      KeptAreOurs(d, people, fos, shape, t);
      assert d.fos[..|roster|] == d.fos && roster[..|roster|] == roster;
      PinnedToOwnQueue(d.fos, roster, |roster|, i, p);
      KeptHasId(t.kept, i, p);
    }
  }

  lemma {:induction false} KeptHasId(kept: Roster, i: nat, p: Person)
    requires i < |kept| && p in kept[i]
    ensures p in Everyone(kept) && p.id in KeptIds(kept)
  {
    hide Everyone;
    InEveryone(kept, i, p);
    Counted1(kept[i], p);
    Counted1(Everyone(kept), p);
  }

  /** An owned contact in FO `i`'s queue is there because their owner is FO `i`. */
  lemma {:induction false} OwnersFo(d: Draft, fos: seq<Fo>, roster: Roster, i: nat, p: Person)
    requires |roster| == |d.fos| && Rightful(Unpinned(d), fos, roster)
    requires i < |roster| && p in roster[i] && p.owner.Some?
    ensures FoOfMember(fos, p.owner.value) == Some(d.fos[i].id)
  {
    hide Position, FoOfMember;
    assert RightfulIn(Unpinned(d), fos, i, p);
    PositionMeans(d.fos, FoOfMember(fos, p.owner.value).value, i);
  }

  lemma {:induction false} PositionMeans(fos: seq<Quota>, id: Id, i: nat)
    requires Position(fos, id) == Some(i)
    ensures i < |fos| && fos[i].id == id
  {
  }

  lemma {:induction false} FinalDraftIsValid(d: Draft, people: seq<Person>, fos: seq<Fo>, shape: Shape, t: Trimmed)
    requires Ready(d, people, fos, shape, t)
    ensures ValidDraft(FinalDraft(d, shape, QueuesOf(Unpinned(d), people, fos).roster, t))
    ensures KeepPeople(people, KeptIds(t.kept)) != []
  {
    hide ValidFlow, QueuesOf, Position, FinalFos, FinalPlace, PinsOf, OnePerId, Everyone;
    FinalFosStay(d, people, fos, shape, t);
    var f := FinalDraft(d, shape, QueuesOf(Unpinned(d), people, fos).roster, t);
    var i := SomebodyKept(d, people, fos, shape, t);
    FinalFosAt(d.fos, t.kept, t.paces, i);
    assert f.fos != [];
  }

  /** Somebody is always kept. */
  lemma {:induction false} SomebodyKept(d: Draft, people: seq<Person>, fos: seq<Fo>, shape: Shape, t: Trimmed) returns (i: nat)
    requires Ready(d, people, fos, shape, t)
    ensures i < |t.kept| && t.kept[i] != []
    ensures KeepPeople(people, KeptIds(t.kept)) != []
  {
    hide ValidDraft, QueuesOf, Everyone, KeepPeople, OnePerId;
    var roster := QueuesOf(Unpinned(d), people, fos).roster;
    KeptAreOurs(d, people, fos, shape, t);
    PlannedAgainAreKept(d, people, fos, shape, t);
    assert people[0] in multiset(people);
    i := FromEveryone(roster, people[0]);
    KeptHasId(t.kept, i, t.kept[i][0]);
    assert t.kept[i][0] in multiset(Everyone(t.kept));
  }

  /**
   * Planned again, each FO has exactly the people they kept: nobody changes FO between the trim and
   * the calendar.
   */
  lemma {:induction false} FinalQueuesAreKept(d: Draft, people: seq<Person>, fos: seq<Fo>, shape: Shape, t: Trimmed, i: nat)
    requires Ready(d, people, fos, shape, t) && i < |t.kept| && t.kept[i] != []
    requires ValidDraft(FinalDraft(d, shape, QueuesOf(Unpinned(d), people, fos).roster, t))
    ensures var f := FinalDraft(d, shape, QueuesOf(Unpinned(d), people, fos).roster, t);
      var q := QueuesOf(f, KeepPeople(people, KeptIds(t.kept)), KeepFos(fos, f.fos));
      q.stray == [] ==> FinalPlace(t.kept, i) < |q.roster| && multiset(q.roster[FinalPlace(t.kept, i)]) == multiset(t.kept[i])
  {
    hide ValidDraft, QueuesOf, Everyone, KeepPeople, KeepFos, FinalPlace, RightfulIn, FinalDraft;
    var f := FinalDraft(d, shape, QueuesOf(Unpinned(d), people, fos).roster, t);
    var again, left := KeepPeople(people, KeptIds(t.kept)), KeepFos(fos, f.fos);
    var q := QueuesOf(f, again, left);
    var j := FinalPlace(t.kept, i);
    PlannedAgainAreKept(d, people, fos, shape, t);
    KeptAreOurs(d, people, fos, shape, t);
    QueuesKeepEveryone(f, again, left);
    QueuesAreRightful(f, again, left);
    FinalPlaceListed(d, people, fos, shape, t, i);
    if q.stray == [] {
      forall p
        ensures multiset(q.roster[j])[p] == multiset(t.kept[i])[p]
      {
        InEveryone(q.roster, j, p);
        InEveryone(t.kept, i, p);
        Counted1(q.roster[j], p);
        Counted1(t.kept[i], p);
        Counted1(Everyone(t.kept), p);
        Counted1(Everyone(q.roster), p);
        if p in q.roster[j] {
          var k := FromEveryone(t.kept, p);
          KeptReturns(d, people, fos, shape, t, k, j, p);
          SamePlace(t.kept, i, k);
        }
        if p in t.kept[i] {
          var x := FromEveryone(q.roster, p);
          KeptReturns(d, people, fos, shape, t, i, x, p);
        }
      }
    }
  }

  lemma {:induction false} SamePlace(kept: Roster, i: nat, k: nat)
    requires i < |kept| && k < |kept| && kept[i] != [] && kept[k] != [] && FinalPlace(kept, i) == FinalPlace(kept, k)
    ensures i == k
  {
    hide FinalPlace;
    if i < k {
      PlacesGrow(kept, i, k);
    } else if k < i {
      PlacesGrow(kept, k, i);
    }
  }

  lemma {:induction false} FinalPlaceListed(d: Draft, people: seq<Person>, fos: seq<Fo>, shape: Shape, t: Trimmed, i: nat)
    requires Ready(d, people, fos, shape, t) && i < |t.kept| && t.kept[i] != []
    ensures var f := FinalDraft(d, shape, QueuesOf(Unpinned(d), people, fos).roster, t);
      FinalPlace(t.kept, i) < |f.fos| && f.fos[FinalPlace(t.kept, i)] == Quota(d.fos[i].id, t.paces[i])
  {
    hide ValidDraft, QueuesOf, FinalPlace, FinalFos, OnePerId;
    FinalFosAt(d.fos, t.kept, t.paces, i);
  }

  // ---------------------------------------------------------------- planning again succeeds

  /** Nobody's owner is missing when the kept contacts are planned again. */
  lemma {:induction false} NobodyStraysAgain(d: Draft, people: seq<Person>, fos: seq<Fo>, shape: Shape, t: Trimmed)
    requires Ready(d, people, fos, shape, t)
    requires ValidDraft(FinalDraft(d, shape, QueuesOf(Unpinned(d), people, fos).roster, t))
    ensures var f := FinalDraft(d, shape, QueuesOf(Unpinned(d), people, fos).roster, t);
      QueuesOf(f, KeepPeople(people, KeptIds(t.kept)), KeepFos(fos, f.fos)).stray == []
  {
    hide ValidDraft, Everyone, KeepPeople, KeepFos, FinalDraft, DealOwned, DealFree, Sort, OnePerId, OwnersQueue;
    var roster := QueuesOf(Unpinned(d), people, fos).roster;
    var f := FinalDraft(d, shape, roster, t);
    var again, left := KeepPeople(people, KeptIds(t.kept)), KeepFos(fos, f.fos);
    var ordered := Sort(ByName, again);
    SortKeeps(ByName, again);
    PlannedAgainAreKept(d, people, fos, shape, t);
    forall x | 0 <= x < |ordered| && ordered[x].owner.Some?
      ensures OwnersQueue(f, left, ordered[x]).Some?
    {
      assert ordered[x] in multiset(ordered) && ordered[x] in multiset(again) && ordered[x] in multiset(Everyone(t.kept));
      Counted1(Everyone(t.kept), ordered[x]);
      OwnerIsListed(d, people, fos, shape, t, ordered[x]);
    }
    NobodyStray(f, left, ordered, seq(|f.fos|, _ => []));
  }

  lemma {:induction false} OwnerIsListed(d: Draft, people: seq<Person>, fos: seq<Fo>, shape: Shape, t: Trimmed, p: Person)
    requires Ready(d, people, fos, shape, t) && p in Everyone(t.kept) && p.owner.Some?
    ensures var f := FinalDraft(d, shape, QueuesOf(Unpinned(d), people, fos).roster, t);
      OwnersQueue(f, KeepFos(fos, f.fos), p).Some?
  {
    hide ValidDraft, QueuesOf, Everyone, Position, FoOfMember, KeepFos, FinalFos, PinsOf, FinalPlace, OnePerId;
    var roster := QueuesOf(Unpinned(d), people, fos).roster;
    var f := FinalDraft(d, shape, roster, t);
    var i := FromEveryone(t.kept, p);
    FinalFosStay(d, people, fos, shape, t);
    KeptIsInQueue(roster, t, i, p);
    QueuesAreRightful(Unpinned(d), people, fos);
    OwnersFo(d, fos, roster, i, p);
    OwnerStays(fos, f.fos, p.owner.value);
  }

  lemma {:induction false} SameFlowLists(d: Draft, people: seq<Person>, fos: seq<Fo>, shape: Shape, t: Trimmed)
    requires Ready(d, people, fos, shape, t)
    ensures FinalDraft(d, shape, QueuesOf(Unpinned(d), people, fos).roster, t).flows == shape.flows
  {
    hide QueuesOf;
  }

  /** `flows[i]` are the outreaches of FO `i`'s batches in the final calendar. */
  ghost predicate FinalFlows(d: Draft, people: seq<Person>, fos: seq<Fo>, shape: Shape, t: Trimmed, flows: seq<Flows>)
    requires Ready(d, people, fos, shape, t) && |flows| == |t.kept|
    requires ValidDraft(FinalDraft(d, shape, QueuesOf(Unpinned(d), people, fos).roster, t))
  {
    var f := FinalDraft(d, shape, QueuesOf(Unpinned(d), people, fos).roster, t);
    var roster := QueuesOf(f, KeepPeople(people, KeptIds(t.kept)), KeepFos(fos, f.fos)).roster;
    forall i :: 0 <= i < |t.kept| && t.kept[i] != [] ==>
      FinalPlace(t.kept, i) < |f.fos| && FlowsFor(f, roster, FinalPlace(t.kept, i)) == flows[i]
  }

  predicate AllValid(flows: seq<Flows>) {
    forall i :: 0 <= i < |flows| ==> ValidFlows(flows[i])
  }

  /** Every FO who keeps anyone was fitted, one of two ways. */
  predicate AllFitted(w: Window, kept: Roster, flows: seq<Flows>)
    requires |w.Days()| >= 1 && |flows| == |kept| && AllValid(flows)
  {
    forall i :: 0 <= i < |kept| && kept[i] != [] ==> FittedSparsely(w, flows[i]) || FittedFully(w, flows[i])
  }

  /** Nobody fitted only by filling every day comes after an FO whose fill-every search outran its limit. */
  predicate InTime(w: Window, kept: Roster, flows: seq<Flows>)
    requires |w.Days()| >= 1 && |flows| == |kept| && AllValid(flows)
  {
    forall i, j :: 0 <= j < i < |kept| && kept[i] != [] && kept[j] != [] && !FittedSparsely(w, flows[i]) ==> Settles(w, flows[j])
  }

  /** Seen in the final draft's own order. */
  lemma {:induction false} FinalIsSure(d: Draft, people: seq<Person>, fos: seq<Fo>, shape: Shape, t: Trimmed, flows: seq<Flows>)
    requires Ready(d, people, fos, shape, t) && |flows| == |t.kept| && AllValid(flows) && |WindowOf(d).Days()| >= 1
    requires ValidDraft(FinalDraft(d, shape, QueuesOf(Unpinned(d), people, fos).roster, t))
    requires FinalFlows(d, people, fos, shape, t, flows)
    requires AllFitted(WindowOf(d), t.kept, flows) && InTime(WindowOf(d), t.kept, flows)
    ensures var f := FinalDraft(d, shape, QueuesOf(Unpinned(d), people, fos).roster, t);
      WindowOf(f) == WindowOf(d) && Sure(f, QueuesOf(f, KeepPeople(people, KeptIds(t.kept)), KeepFos(fos, f.fos)).roster, |f.fos|)
  {
    hide ValidDraft, QueuesOf, WorkingDays, FinalPlace, FinalFos, FlowsFor, FittedSparsely, FittedFully, Settles, KeepPeople, KeepFos, PinsOf, OnePerId;
    var f := FinalDraft(d, shape, QueuesOf(Unpinned(d), people, fos).roster, t);
    var roster := QueuesOf(f, KeepPeople(people, KeptIds(t.kept)), KeepFos(fos, f.fos)).roster;
    forall x | 0 <= x < |f.fos|
      ensures SureOne(f, roster, x)
    {
      var i := FinalFosFrom(d.fos, t.kept, t.paces, x);
      if !FittedSparsely(WindowOf(d), flows[i]) {
        forall y | 0 <= y < x
          ensures Settles(WindowOf(f), FlowsFor(f, roster, y))
        {
          var j := FinalFosFrom(d.fos, t.kept, t.paces, y);
          assert j < i by {
            if i < j {
              PlacesGrow(t.kept, i, j);
            }
          }
        }
      }
    }
  }

  // ---------------------------------------------------------------- the plan handed back

  datatype Fitted = Fitted(draft: Draft, calendar: CampaignCalendar, overflow: seq<Person>)

  /**
   * Conservation: a valid final calendar and the overflow together hold every contact exactly once,
   * and each FO's batches hold exactly the prefix of their queue that they keep.
   */
  lemma {:induction false} NobodyIsLost(d: Draft, people: seq<Person>, fos: seq<Fo>, shape: Shape, t: Trimmed, limit: nat)
    requires Ready(d, people, fos, shape, t)
    ensures ValidDraft(FinalDraft(d, shape, QueuesOf(Unpinned(d), people, fos).roster, t))
    ensures var f := FinalDraft(d, shape, QueuesOf(Unpinned(d), people, fos).roster, t);
      var c := BuildCalendar(f, KeepPeople(people, KeptIds(t.kept)), KeepFos(fos, f.fos), limit, Calendar.Best);
      c.valid ==>
        && multiset(Planned(c.batches)) + multiset(t.overflow) == multiset(people)
        && forall i :: 0 <= i < |t.kept| && t.kept[i] != [] ==>
          multiset(Planned(Mine(c.batches, d.fos[i].id))) == multiset(t.kept[i])
  {
    hide ValidDraft, QueuesOf, Everyone, KeepPeople, KeepFos, FinalPlace, FinalDraft, Mine, Planned, OnePerId, PlanUpTo;
    FinalDraftIsValid(d, people, fos, shape, t);
    var f := FinalDraft(d, shape, QueuesOf(Unpinned(d), people, fos).roster, t);
    var again, left := KeepPeople(people, KeptIds(t.kept)), KeepFos(fos, f.fos);
    var c := BuildCalendar(f, again, left, limit, Calendar.Best);
    ValidCalendarIsSound(f, again, left, limit, Calendar.Best);
    PlannedAgainAreKept(d, people, fos, shape, t);
    KeptAreOurs(d, people, fos, shape, t);
    if c.valid {
      ValidHasNoStrays(f, again, left, limit);
      forall i | 0 <= i < |t.kept| && t.kept[i] != []
        ensures multiset(Planned(Mine(c.batches, d.fos[i].id))) == multiset(t.kept[i])
      {
        FinalQueuesAreKept(d, people, fos, shape, t, i);
        FinalPlaceListed(d, people, fos, shape, t, i);
        PartIsQueue(f, QueuesOf(f, again, left).roster, FinalPlace(t.kept, i), Mine(c.batches, d.fos[i].id));
      }
    }
  }

  lemma {:induction false} ValidHasNoStrays(d: Draft, people: seq<Person>, fos: seq<Fo>, limit: nat)
    requires ValidDraft(d) && BuildCalendar(d, people, fos, limit, Calendar.Best).valid
    ensures QueuesOf(d, people, fos).stray == []
  {
    hide ValidDraft, QueuesOf, PlanUpTo, WorkingDays;
  }

  /** A served FO's batches hold their whole queue. */
  lemma {:induction false} PartIsQueue(d: Draft, roster: Roster, i: nat, mine: seq<PlannedBatch>)
    requires ValidDraft(d) && i < |d.fos| == |roster| && Served(d, roster, i, Calendar.Best, mine)
    ensures Planned(mine) == roster[i]
  {
    hide ValidDraft, Batches, Arrangement, Planned, People;
    var plan: seq<Start> :| ServedBy(d, roster, i, Calendar.Best, mine, plan);
    PlannedOfStamp(d.fos[i].id, BatchesFor(d, roster, i), DatesOf(plan));
    BatchesCutTheQueue(d, roster[i], d.fos[i].batchSize);
  }

  /**
   * The end of fitCampaign: plan the kept contacts again, and hand the plan back if it is valid. It
   * is, when every FO was fitted, in time, on the outreaches their batches have in the final draft.
   */
  method Finish(d: Draft, people: seq<Person>, fos: seq<Fo>, shape: Shape, t: Trimmed, ghost flows: seq<Flows>) returns (r: Option<Fitted>)
    requires Ready(d, people, fos, shape, t) && |WindowOf(d).Days()| >= 1
    requires |flows| == |t.kept| && AllValid(flows)
    requires ValidDraft(FinalDraft(d, shape, QueuesOf(Unpinned(d), people, fos).roster, t)) && FinalFlows(d, people, fos, shape, t, flows)
    ensures AllFitted(WindowOf(d), t.kept, flows) && InTime(WindowOf(d), t.kept, flows) ==> r.Some?
    ensures r.Some? ==>
      && r.value.draft == FinalDraft(d, shape, QueuesOf(Unpinned(d), people, fos).roster, t)
      && r.value.calendar.valid && r.value.overflow == t.overflow
      && multiset(Planned(r.value.calendar.batches)) + multiset(r.value.overflow) == multiset(people)
      && forall i :: 0 <= i < |t.kept| && t.kept[i] != [] ==>
        multiset(Planned(Mine(r.value.calendar.batches, d.fos[i].id))) == multiset(t.kept[i])
  {
    hide ValidDraft, QueuesOf, BuildCalendar, FinalDraft, KeepPeople, KeepFos, Mine, Planned, OnePerId, InTime, AllFitted, FinalFlows, AllValid, WorkingDays, Sure;
    AtLeastOneFo(Unpinned(d));
    var q := CampaignQueues(Unpinned(d), people, fos);
    FinalDraftIsValid(d, people, fos, shape, t);
    var f := FinalDraft(d, shape, q.roster, t);
    var limit := SEARCH_LIMIT * (|f.fos| + 5);
    var c := BuildCampaignCalendar(f, KeepPeople(people, KeptIds(t.kept)), KeepFos(fos, f.fos), limit, Calendar.Best);
    NobodyIsLost(d, people, fos, shape, t, limit);
    if AllFitted(WindowOf(d), t.kept, flows) && InTime(WindowOf(d), t.kept, flows) {
      FinalIsSure(d, people, fos, shape, t, flows);
      NobodyStraysAgain(d, people, fos, shape, t);
      SureIsValid(f, KeepPeople(people, KeptIds(t.kept)), KeepFos(fos, f.fos));
    }
    r := if c.valid then Some(Fitted(f, c, t.overflow)) else None;
  }
}
