/** fitCampaign where the studio builds the outreach. */
module Studio {
  // From the queues to the calendar: src/lib/campaign-fit.ts.

  import opened Days
  import opened Starts
  import opened Room
  import opened Queues
  import opened Campaign
  import opened Measure
  import opened Paces
  import opened StandIns
  import opened Certain
  import opened Edited
  import opened BranchBound
  import opened Split
  import opened Trimming
  import opened FinalPlan
  import opened Reshaping
  import Fit

  /** How canSchedule answers for an FO, outreach by outreach. */
  type Answers = Flow -> Schedule

  function FlowAt(choices: seq<Fit.Choice>, c: nat): Flow {
    if c < |choices| then choices[c].flow else Fit.ONE_STEP
  }

  /** The same answers, by the outreach's place among the choices. */
  function Through(ask: Answers, choices: seq<Fit.Choice>): nat -> Schedule {
    (c: nat) => ask(FlowAt(choices, c))
  }

  /** Every answer is the planner's own, or nothing about filling every day. */
  ghost predicate Sincere(w: Window, ask: nat -> Answers) {
    forall i: nat, f: Flow :: ValidFlow(f) ==> FromStandIns(w, f, ask(i)(f))
  }

  // ---------------------------------------------------------------- weighing every FO

  /** FO `i`'s case: every outreach evaluated on the contacts they keep, at the pace they asked for. */
  ghost predicate IsCase(w: Window, fos: seq<Quota>, kept: Roster, choices: seq<Fit.Choice>, ask: nat -> Answers, i: nat, c: Case)
    requires i < |fos| == |kept| && Fit.ValidChoices(choices)
  {
    kept[i] != [] && fos[i].batchSize >= 1 && c == CaseFor(w, choices, |kept[i]|, fos[i].batchSize, Through(ask(i), choices))
  }

  /** The cases of the first `n` FOs, of those who keep anyone. */
  ghost predicate CasesOf(w: Window, fos: seq<Quota>, kept: Roster, choices: seq<Fit.Choice>, ask: nat -> Answers, n: nat, cases: seq<Case>)
    requires n <= |fos| == |kept| && Fit.ValidChoices(choices)
  {
    && |cases| == FinalPlace(kept, n)
    && forall i :: 0 <= i < n && kept[i] != [] ==>
         FinalPlace(kept, i) < |cases| && IsCase(w, fos, kept, choices, ask, i, cases[FinalPlace(kept, i)])
  }

  function Qualities(choices: seq<Fit.Choice>): seq<real> {
    seq(|choices|, i requires 0 <= i < |choices| => choices[i].q)
  }

  /** Cases weighed over the same outreaches, and what each FO gets alone. */
  ghost predicate WeighedAll(w: Window, choices: seq<Fit.Choice>, cases: seq<Case>, alone: seq<Best>) {
    && |alone| == |cases|
    && forall x :: 0 <= x < |cases| ==>
         && ValidCase(cases[x]) && cases[x].table.q == Qualities(choices) && cases[x].table.days == |w.Days()|
         && IsBest(cases[x].table, alone[x].i, alone[x])
  }

  ghost predicate AllLeast(cases: seq<Case>, alone: seq<Best>)
    requires |alone| == |cases|
  {
    forall x :: 0 <= x < |cases| ==> LeastAlone(cases[x], alone[x])
  }

  /** No outreach gives this FO less excess alone, or as little and a better score. */
  ghost predicate LeastAlone(c: Case, b: Best) {
    ValidCase(c) && Fit.LeastExcess(c.table, b)
  }

  /** The loop behind `alone`: each FO with contacts, on their own. */
  method WeighEveryone(w: Window, fos: seq<Quota>, kept: Roster, choices: seq<Fit.Choice>, ask: nat -> Answers, spent: nat -> nat -> bool)
    returns (cases: seq<Case>, alone: seq<Best>, lengths: seq<nat>, ids: seq<Id>, cut: bool)
    requires |w.Days()| >= 1 && |fos| == |kept| && Fit.ValidChoices(choices) && Fit.Listed(choices, Fit.ONE_STEP) && Sincere(w, ask)
    requires forall i :: 0 <= i < |fos| ==> fos[i].batchSize >= 1 && |kept[i]| <= MAX_PACE * |w.Days()|
    ensures CasesOf(w, fos, kept, choices, ask, |fos|, cases) && WeighedAll(w, choices, cases, alone)
    ensures |lengths| == |ids| == |cases|
    ensures !cut ==> AllLeast(cases, alone)
  {
    hide ValidFlow, WorkingDays, Sincere, CaseFor, CasesOf, IsCase, IsBest, ValidCase, Fit.LeastExcess, Fit.TableFor, FinalPlace, Through, FromStandIns;
    cases, alone, lengths, ids, cut := [], [], [], [], false;
    assert CasesOf(w, fos, kept, choices, ask, 0, cases) by { NoCases(w, fos, kept, choices, ask); }
    for i := 0 to |fos|
      invariant CasesOf(w, fos, kept, choices, ask, i, cases) && WeighedAll(w, choices, cases, alone)
      invariant |lengths| == |ids| == |cases|
      invariant !cut ==> AllLeast(cases, alone)
    {
      ghost var before := cases;
      if kept[i] != [] {
        var schedules := Through(ask(i), choices);
        AllAnswered(w, choices, ask, i);
        var c := Weigh(w, choices, |kept[i]|, fos[i].batchSize, schedules);
        CaseParts(w, choices, |kept[i]|, fos[i].batchSize, schedules);
        CaseIsValid(w, choices, |kept[i]|, fos[i].batchSize, schedules);
        var best, cutHere := Fit.ServeAlone(w, choices, |kept[i]|, fos[i].batchSize, schedules, c.table, spent(|cases|));
        cases, alone := cases + [c], alone + [best.value];
        lengths, ids := lengths + [|kept[i]|], ids + [fos[i].id];
        cut := cut || cutHere;
        assert IsCase(w, fos, kept, choices, ask, i, c) by { CaseIs(w, fos, kept, choices, ask, i, c); }
      }
      OneMoreCase(w, fos, kept, choices, ask, i, before, cases);
    }
  }

  lemma {:induction false} CaseIs(w: Window, fos: seq<Quota>, kept: Roster, choices: seq<Fit.Choice>, ask: nat -> Answers, i: nat, c: Case)
    requires i < |fos| == |kept| && Fit.ValidChoices(choices) && kept[i] != [] && fos[i].batchSize >= 1
    requires c == CaseFor(w, choices, |kept[i]|, fos[i].batchSize, Through(ask(i), choices))
    ensures IsCase(w, fos, kept, choices, ask, i, c)
  {
    hide CaseFor, Through;
  }

  lemma {:induction false} NoCases(w: Window, fos: seq<Quota>, kept: Roster, choices: seq<Fit.Choice>, ask: nat -> Answers)
    requires |fos| == |kept| && Fit.ValidChoices(choices)
    ensures CasesOf(w, fos, kept, choices, ask, 0, [])
  {
  }

  lemma {:induction false} AllAnswered(w: Window, choices: seq<Fit.Choice>, ask: nat -> Answers, i: nat)
    requires Fit.ValidChoices(choices) && Sincere(w, ask)
    ensures forall c :: 0 <= c < |choices| ==> FromStandIns(w, choices[c].flow, Through(ask(i), choices)(c))
  {
    hide ValidFlow, FromStandIns;
    forall c | 0 <= c < |choices|
      ensures FromStandIns(w, choices[c].flow, Through(ask(i), choices)(c))
    {
      assert FromStandIns(w, choices[c].flow, ask(i)(choices[c].flow));
      assert FlowAt(choices, c) == choices[c].flow;
      assert Through(ask(i), choices)(c) == ask(i)(FlowAt(choices, c));
    }
  }

  lemma {:induction false} CaseParts(w: Window, choices: seq<Fit.Choice>, length: nat, target: nat, schedules: nat -> Schedule)
    requires Fit.ValidChoices(choices) && length >= 1 && target >= 1
    ensures var c := CaseFor(w, choices, length, target, schedules);
      && c.table == Fit.TableFor(w, choices, length, target, schedules)
      && c.table.q == Qualities(choices) && c.table.days == |w.Days()| && |c.table.one| == |choices| && c.target == target
  {
    hide ValidFlow, WorkingDays, Fit.One, Fit.FloorExcess, Fit.FloorPace;
    var c := CaseFor(w, choices, length, target, schedules);
    assert c.table.q == Qualities(choices);
  }

  /** What a case holds of one outreach is what that outreach gives the FO. */
  lemma {:induction false} CaseHolds(w: Window, choices: seq<Fit.Choice>, length: nat, target: nat, schedules: nat -> Schedule, i: nat)
    requires Fit.ValidChoices(choices) && length >= 1 && target >= 1 && i < |choices|
    ensures i < |CaseFor(w, choices, length, target, schedules).table.one|
    ensures CaseFor(w, choices, length, target, schedules).table.one[i] == Fit.One(w, choices[i], length, target, schedules(i))
  {
    hide ValidFlow, WorkingDays, Fit.One, Fit.FloorExcess, Fit.FloorPace;
  }

  lemma {:induction false} NextPlace(kept: Roster, i: nat)
    requires i < |kept|
    ensures FinalPlace(kept, i + 1) == FinalPlace(kept, i) + (if kept[i] != [] then 1 else 0)
  {
  }

  lemma {:induction false} OneMoreCase(w: Window, fos: seq<Quota>, kept: Roster, choices: seq<Fit.Choice>, ask: nat -> Answers, i: nat, before: seq<Case>, cases: seq<Case>)
    requires i < |fos| == |kept| && Fit.ValidChoices(choices) && CasesOf(w, fos, kept, choices, ask, i, before)
    requires kept[i] == [] ==> cases == before
    requires kept[i] != [] ==> |cases| == |before| + 1 && cases[..|before|] == before && IsCase(w, fos, kept, choices, ask, i, cases[|before|])
    ensures CasesOf(w, fos, kept, choices, ask, i + 1, cases)
  {
    hide IsCase, FinalPlace;
    NextPlace(kept, i);
    forall j | 0 <= j < i && kept[j] != []
      ensures FinalPlace(kept, j) < |cases| && IsCase(w, fos, kept, choices, ask, j, cases[FinalPlace(kept, j)])
    {
      assert cases[FinalPlace(kept, j)] == before[FinalPlace(kept, j)];
    }
  }

  // ---------------------------------------------------------------- what the studio settles on

  /** Everything weighed and chosen; `cut` says the search budget ended the loop behind `alone` or the one behind `star`. */
  datatype Study = Study(choices: seq<Fit.Choice>, cases: seq<Case>, alone: seq<Best>, star: Option<Shared>, main: nat, picks: seq<Pick>, cut: bool)

  /** No outreach serves the team with a lower worst excess, a lower total at that worst, or a better score at both. */
  ghost predicate LeastShared(cases: seq<Case>, star: Option<Shared>)
    requires ValidCases(cases)
  {
    forall i :: 0 <= i < |cases[0].table.q| && Joint(cases, i).Some? ==> star.Some? && !LexLess(Joint(cases, i).value, star.value)
  }

  /** The team shares one outreach, or Default and some of their own keep everyone within their allowance. */
  ghost predicate Settled(cases: seq<Case>, alone: seq<Best>, star: Option<Shared>, main: nat, picks: seq<Pick>)
    requires ValidCases(cases) && Alones(cases, alone) && (star.Some? ==> Takes(cases, star.value))
  {
    && main < |cases[0].table.q| && |picks| == |cases|
    && (forall k :: 0 <= k < |cases| && !picks[k].own ==> picks[k].i == main)
    && (if star.Some? && star.value.worst <= WorstAlone(alone) + ROUNDING then SharesWell(cases, alone, star, picks)
        else forall k :: 0 <= k < |cases| ==> Fair(cases, alone, main, k, picks[k]))
  }

  /**
   * The study is what the fitter promises: every recipe that fits was weighed for every FO who keeps
   * anyone, each FO has an outreach of their own to compare with, and the choice between sharing and
   * splitting keeps everyone within what they are allowed. Unless the budget cut the loops, no
   * outreach serves an FO better alone, and none serves the team better shared, than those compared.
   */
  ghost predicate Studied(w: Window, fos: seq<Quota>, kept: Roster, ask: nat -> Answers, st: Study)
    requires |fos| == |kept|
  {
    && Fit.ValidChoices(st.choices) && Fit.Weighed(w, st.choices)
    && CasesOf(w, fos, kept, st.choices, ask, |fos|, st.cases) && WeighedAll(w, st.choices, st.cases, st.alone)
    && ValidCases(st.cases) && Alones(st.cases, st.alone) && (st.star.Some? ==> Takes(st.cases, st.star.value))
    && Settled(st.cases, st.alone, st.star, st.main, st.picks)
    && (!st.cut ==> AllLeast(st.cases, st.alone) && LeastShared(st.cases, st.star))
  }

  /** FO `i`'s pick, for one who keeps anyone. */
  function PickAt(kept: Roster, st: Study, i: nat): Pick
    requires i < |kept|
  {
    if kept[i] != [] && FinalPlace(kept, i) < |st.picks| then st.picks[FinalPlace(kept, i)] else Pick(st.main, false, 1)
  }

  /** Each FO's batches: their outreach as many times as their pace cuts their contacts. */
  function StudyFlows(kept: Roster, st: Study): (flows: seq<Flows>)
    ensures |flows| == |kept|
  {
    seq(|kept|, i requires 0 <= i < |kept| =>
      var p := PickAt(kept, st, i);
      if kept[i] != [] && p.pace >= 1 then Same(FlowAt(st.choices, p.i), Ceil(|kept[i]|, p.pace)) else [])
  }

  lemma {:induction false} StudyFlowsAreValid(kept: Roster, st: Study)
    requires Fit.ValidChoices(st.choices)
    ensures AllValid(StudyFlows(kept, st))
  {
    hide ValidFlow, PickAt;
    Fit.RecipeIsValid(1, 1);
  }

  /** Whatever was settled, an FO's pick is an outreach they were evaluated on, at the pace it gives them. */
  lemma {:induction false} PickIsEvaluated(cases: seq<Case>, alone: seq<Best>, star: Option<Shared>, main: nat, picks: seq<Pick>, x: nat)
    requires ValidCases(cases) && Alones(cases, alone) && (star.Some? ==> Takes(cases, star.value))
    requires Settled(cases, alone, star, main, picks) && x < |cases|
    ensures |picks| == |cases|
    ensures var p, one := picks[x], cases[x].table.one;
      && p.i < |one| && one[p.i].Some? && one[p.i].value.pace == p.pace
      && main < |one| && (!p.own ==> p.i == main)
  {
    hide ValidCase, Joint, Allowance, Split.Room, WorstAlone;
  }

  /** What an FO's case holds of an outreach is a pace they were fitted at. */
  lemma {:induction false} CaseIsFitted(w: Window, choices: seq<Fit.Choice>, length: nat, target: nat, schedules: nat -> Schedule, c: Case, i: nat)
    requires |w.Days()| >= 1 && Fit.ValidChoices(choices) && length >= 1 && target >= 1 && c == CaseFor(w, choices, length, target, schedules)
    requires i < |choices| ==> FromStandIns(w, choices[i].flow, schedules(i))
    requires i < |c.table.one| && c.table.one[i].Some?
    ensures i < |choices| == |c.table.one| && c.table.one[i].value.pace >= 1 && ValidFlow(choices[i].flow)
    ensures var flows := Same(choices[i].flow, Ceil(length, c.table.one[i].value.pace)); FittedSparsely(w, flows) || FittedFully(w, flows)
  {
    hide ValidFlow, WorkingDays, CaseFor, Fit.One, FittedSparsely, FittedFully, FromStandIns, Ceil;
    CaseParts(w, choices, length, target, schedules);
    CaseHolds(w, choices, length, target, schedules, i);
    Fit.OneIsFitted(w, choices[i], length, target, schedules(i));
  }

  /** FO `i`'s case and pick. */
  lemma {:induction false} CaseAndPick(w: Window, fos: seq<Quota>, kept: Roster, ask: nat -> Answers, st: Study, i: nat)
    requires |fos| == |kept| && Studied(w, fos, kept, ask, st) && i < |kept| && kept[i] != []
    ensures var x := FinalPlace(kept, i); var p := PickAt(kept, st, i);
      && x < |st.cases| && IsCase(w, fos, kept, st.choices, ask, i, st.cases[x])
      && p.i < |st.cases[x].table.one| && st.cases[x].table.one[p.i].Some? && st.cases[x].table.one[p.i].value.pace == p.pace
      && st.main < |st.cases[x].table.one| && (!p.own ==> p.i == st.main)
  {
    hide ValidFlow, IsCase, Settled, ValidCases, WeighedAll, FinalPlace, LeastShared, AllLeast, Fit.Weighed, Alones, Takes;
    PickIsEvaluated(st.cases, st.alone, st.star, st.main, st.picks, FinalPlace(kept, i));
  }

  /** And it was fitted: the planner's own answers had it planned in that many batches. */
  lemma {:induction false} PickIsFitted(w: Window, fos: seq<Quota>, kept: Roster, ask: nat -> Answers, st: Study, i: nat)
    requires |w.Days()| >= 1 && |fos| == |kept| && Sincere(w, ask) && Studied(w, fos, kept, ask, st) && i < |kept| && kept[i] != []
    ensures var p := PickAt(kept, st, i);
      && p.i < |st.choices| && st.main < |st.choices| && (!p.own ==> p.i == st.main) && p.pace >= 1
      && ValidFlow(st.choices[p.i].flow)
      && (FittedSparsely(w, Same(st.choices[p.i].flow, Ceil(|kept[i]|, p.pace))) || FittedFully(w, Same(st.choices[p.i].flow, Ceil(|kept[i]|, p.pace))))
  {
    hide ValidFlow, WorkingDays, CaseFor, Studied, FinalPlace, PickAt, Through, FittedSparsely, FittedFully, FromStandIns, Ceil, Sincere;
    CaseAndPick(w, fos, kept, ask, st, i);
    assert Fit.ValidChoices(st.choices) by { ChoicesAreValid(w, fos, kept, ask, st); }
    AllAnswered(w, st.choices, ask, i);
    CaseIsFitted(w, st.choices, |kept[i]|, fos[i].batchSize, Through(ask(i), st.choices), st.cases[FinalPlace(kept, i)], PickAt(kept, st, i).i);
  }

  /** Qualities are the same in every case, and there is one: the cases are what the last choices rely on. */
  lemma {:induction false} CasesAreValid(w: Window, choices: seq<Fit.Choice>, cases: seq<Case>, alone: seq<Best>)
    requires WeighedAll(w, choices, cases, alone) && cases != []
    ensures ValidCases(cases) && Alones(cases, alone) && |cases[0].table.q| == |choices|
  {
    hide ValidTable, Score;
    forall x | 0 <= x < |cases|
      ensures |cases[x].table.one| == |cases[x].floorPace| == |cases[0].table.q|
    {
      TableSized(cases[x].table);
      TableSized(cases[0].table);
    }
  }

  lemma {:induction false} TableSized(t: Table)
    requires ValidTable(t)
    ensures t.days >= 1 && |t.one| == |t.floor| == |t.q|
  {
  }

  /** From the queues kept to an outreach and a pace for everyone who keeps contacts. */
  method Decide(w: Window, fos: seq<Quota>, kept: Roster, ask: nat -> Answers, spent: nat -> nat -> bool) returns (st: Study)
    requires |w.Days()| >= 1 && |fos| == |kept| && Sincere(w, ask) && FinalPlace(kept, |kept|) >= 1
    requires forall i :: 0 <= i < |fos| ==> fos[i].batchSize >= 1 && |kept[i]| <= MAX_PACE * |w.Days()|
    ensures Studied(w, fos, kept, ask, st)
  {
    hide ValidFlow, WorkingDays, Sincere, CasesOf, WeighedAll, ValidCase, ValidCases, Alones, AllLeast, Together, Joint, Fit.Weighed, Fit.Listed, SharesWell, Fair, FinalPlace, Fit.FitsWindow, WorstAlone;
    var choices := Fit.WeighedChoices(w);
    var cases, alone, lengths, ids, cut := WeighEveryone(w, fos, kept, choices, ask, spent);
    assert cases != [] by { SomeCase(w, fos, kept, choices, ask, cases); }
    CasesAreValid(w, choices, cases, alone);
    TablesAreTeam(cases);
    var star, cutStar := Star(Tables(cases), spent(|cases|));
    assert (star.Some? ==> Takes(cases, star.value)) && (!cutStar ==> LeastShared(cases, star)) by { StarIsShared(cases, star, cutStar); }
    var main, picks := ChooseOutreach(cases, alone, star, lengths, ids, spent(|cases| + 1));
    st := Study(choices, cases, alone, star, main, picks, cut || cutStar);
  }

  lemma {:induction false} SomeCase(w: Window, fos: seq<Quota>, kept: Roster, choices: seq<Fit.Choice>, ask: nat -> Answers, cases: seq<Case>)
    requires |fos| == |kept| && Fit.ValidChoices(choices) && CasesOf(w, fos, kept, choices, ask, |fos|, cases) && FinalPlace(kept, |kept|) >= 1
    ensures cases != []
  {
    hide FinalPlace, IsCase;
  }

  lemma {:induction false} StarIsShared(cases: seq<Case>, star: Option<Shared>, cut: bool)
    requires ValidCases(cases) && ValidTeam(Tables(cases)) && Tables(cases)[0].q == cases[0].table.q
    requires star.Some? ==> star.value.i < |cases[0].table.q| && Together(Tables(cases), star.value.i) == star
    requires !cut ==> forall i :: 0 <= i < |cases[0].table.q| && Together(Tables(cases), i).Some? ==> star.Some? && !LexLess(Together(Tables(cases), i).value, star.value)
    ensures star.Some? ==> Takes(cases, star.value)
    ensures !cut ==> LeastShared(cases, star)
  {
    hide ValidCases, ValidTeam, Together;
  }

  // ---------------------------------------------------------------- the final draft

  /** The FOs' batches in the final draft are those the study settled on. */
  lemma {:induction false} StudyFlowsAreFinal(d: Draft, people: seq<Person>, fos: seq<Fo>, flows: seq<Flow>, main: nat, picks: seq<Pick>, s: Shape, t: Trimmed, cut: seq<Flows>)
    requires Ready(d, people, fos, s, t) && Reshaping.Chosen(d.fos, t.kept, flows, main, picks)
    requires FlowsBuilt(d.fos, t.kept, flows, main, picks, |d.fos|, s.flows) && PeopleAssigned(d.fos, t.kept, picks, |d.fos|, s.assignments)
    requires ValidDraft(FinalDraft(d, s, QueuesOf(Unpinned(d), people, fos).roster, t)) && |cut| == |t.kept|
    requires forall i :: 0 <= i < |t.kept| && t.kept[i] != [] ==> t.paces[i] >= 1 && cut[i] == Same(flows[picks[i].i], Ceil(|t.kept[i]|, t.paces[i]))
    ensures FinalFlows(d, people, fos, s, t, cut)
  {
    hide ValidDraft, QueuesOf, Everyone, KeepPeople, KeepFos, FinalPlace, FinalDraft, OnePerId, FlowsBuilt, PeopleAssigned, Ceil, FlowId, Steps, FlowsFor, ValidFlow;
    var f := FinalDraft(d, s, QueuesOf(Unpinned(d), people, fos).roster, t);
    var again, left := KeepPeople(people, KeptIds(t.kept)), KeepFos(fos, f.fos);
    var roster := QueuesOf(f, again, left).roster;
    NobodyStraysAgain(d, people, fos, s, t);
    forall i | 0 <= i < |t.kept| && t.kept[i] != []
      ensures FinalPlace(t.kept, i) < |f.fos| && FlowsFor(f, roster, FinalPlace(t.kept, i)) == cut[i]
    {
      FinalPlaceListed(d, people, fos, s, t, i);
      FinalQueuesAreKept(d, people, fos, s, t, i);
      OneOutreachInFinal(d, people, fos, flows, main, picks, s, t, i, roster[FinalPlace(t.kept, i)]);
      FlowsForIs(f, roster, FinalPlace(t.kept, i));
    }
  }

  lemma {:induction false} FlowsForIs(f: Draft, roster: Roster, x: nat)
    requires ValidDraft(f) && x < |f.fos| == |roster|
    ensures FlowsFor(f, roster, x) == FlowsOf(f, Batches(f, roster[x], f.fos[x].batchSize))
  {
    hide ValidDraft, FlowsOf, Batches;
  }

  /** A queue of the contacts FO `i` keeps, in any order, is cut into batches of one outreach. */
  lemma {:induction false} OneOutreachInFinal(d: Draft, people: seq<Person>, fos: seq<Fo>, flows: seq<Flow>, main: nat, picks: seq<Pick>, s: Shape, t: Trimmed, i: nat, queue: seq<Person>)
    requires Ready(d, people, fos, s, t) && Reshaping.Chosen(d.fos, t.kept, flows, main, picks)
    requires FlowsBuilt(d.fos, t.kept, flows, main, picks, |d.fos|, s.flows) && PeopleAssigned(d.fos, t.kept, picks, |d.fos|, s.assignments)
    requires ValidDraft(FinalDraft(d, s, QueuesOf(Unpinned(d), people, fos).roster, t))
    requires i < |t.kept| && t.kept[i] != [] && multiset(queue) == multiset(t.kept[i]) && t.paces[i] >= 1
    ensures var f := FinalDraft(d, s, QueuesOf(Unpinned(d), people, fos).roster, t);
      FlowsOf(f, Batches(f, queue, t.paces[i])) == Same(flows[picks[i].i], Ceil(|t.kept[i]|, t.paces[i]))
  {
    hide ValidDraft, QueuesOf, Everyone, FinalDraft, OnePerId, FlowsBuilt, PeopleAssigned, Ceil, FlowId, Steps, Batches, FlowsOf, ValidFlow;
    var f := FinalDraft(d, s, QueuesOf(Unpinned(d), people, fos).roster, t);
    var id := OutreachOf(d.fos, t.kept, picks, i);
    assert |multiset(queue)| == |queue| && |multiset(t.kept[i])| == |t.kept[i]|;
    forall x | 0 <= x < |queue|
      ensures FlowId(f, queue[x]) == id && |f.flows| >= 1 && Steps(f, id) == flows[picks[i].i]
    {
      assert queue[x] in multiset(queue) && queue[x] in t.kept[i];
      EveryoneFollowsTheirPick(d, people, fos, flows, main, picks, s, t, i, queue[x]);
    }
    assert queue != [];
    assert FlowId(f, queue[0]) == id;
    OneOutreachBatches(f, queue, t.paces[i], id);
  }

  /** In the final draft every FO who keeps anyone has the pace settled on, and their contacts the outreach. */
  ghost predicate FollowsStudy(final: Draft, fos: seq<Quota>, kept: Roster, st: Study)
    requires |fos| == |kept|
  {
    && |final.flows| >= 1
    && forall i :: 0 <= i < |kept| && kept[i] != [] ==>
         && FinalPlace(kept, i) < |final.fos| && final.fos[FinalPlace(kept, i)] == Quota(fos[i].id, PickAt(kept, st, i).pace)
         && forall p :: p in kept[i] ==> Steps(final, FlowId(final, p)) == FlowAt(st.choices, PickAt(kept, st, i).i)
  }

  // ---------------------------------------------------------------- from the queues to the calendar

  function FlowsOfChoices(choices: seq<Fit.Choice>): (flows: seq<Flow>)
    ensures |flows| == |choices|
  {
    seq(|choices|, i requires 0 <= i < |choices| => choices[i].flow)
  }

  /** Every FO's pick, in the order of the draft. */
  function Everybody(kept: Roster, st: Study): (picks: seq<Pick>)
    ensures |picks| == |kept|
  {
    seq(|kept|, i requires 0 <= i < |kept| => PickAt(kept, st, i))
  }

  function PacesOf(picks: seq<Pick>): (paces: seq<nat>)
    ensures |paces| == |picks|
  {
    seq(|picks|, i requires 0 <= i < |picks| => picks[i].pace)
  }

  /** What BuildShape and the calendar need of the study. */
  lemma {:induction false} StudyIsChosen(w: Window, fos: seq<Quota>, kept: Roster, ask: nat -> Answers, st: Study)
    requires |w.Days()| >= 1 && |fos| == |kept| && Sincere(w, ask) && Studied(w, fos, kept, ask, st) && FinalPlace(kept, |kept|) >= 1
    ensures Reshaping.Chosen(fos, kept, FlowsOfChoices(st.choices), st.main, Everybody(kept, st))
    ensures AllValid(StudyFlows(kept, st)) && AllFitted(w, kept, StudyFlows(kept, st))
    ensures forall i :: 0 <= i < |kept| && kept[i] != [] ==>
      var p := PickAt(kept, st, i);
      p.pace >= 1 && StudyFlows(kept, st)[i] == Same(FlowsOfChoices(st.choices)[p.i], Ceil(|kept[i]|, p.pace))
  {
    hide ValidFlow, WorkingDays, Studied, Sincere, FinalPlace, FittedSparsely, FittedFully, Ceil, PickAt;
    ChoicesAreValid(w, fos, kept, ask, st);
    StudyFlowsAreValid(kept, st);
    forall i | 0 <= i < |kept| && kept[i] != []
      ensures var p := PickAt(kept, st, i);
        && p.i < |st.choices| && p.pace >= 1 && (!p.own ==> p.i == st.main)
        && StudyFlows(kept, st)[i] == Same(st.choices[p.i].flow, Ceil(|kept[i]|, p.pace))
        && (FittedSparsely(w, StudyFlows(kept, st)[i]) || FittedFully(w, StudyFlows(kept, st)[i]))
    {
      PickIsFitted(w, fos, kept, ask, st, i);
    }
    forall i | 0 <= i < |kept| && kept[i] == []
      ensures PickAt(kept, st, i) == Pick(st.main, false, 1)
    {
      NobodysPick(kept, st, i);
    }
  }

  lemma {:induction false} NobodysPick(kept: Roster, st: Study, i: nat)
    requires i < |kept| && kept[i] == []
    ensures PickAt(kept, st, i) == Pick(st.main, false, 1)
  {
  }

  lemma {:induction false} ChoicesAreValid(w: Window, fos: seq<Quota>, kept: Roster, ask: nat -> Answers, st: Study)
    requires |fos| == |kept| && Studied(w, fos, kept, ask, st)
    ensures Fit.ValidChoices(st.choices) && st.main < |st.choices|
  {
    hide ValidFlow, ValidCase, SharesWell, Fair, Fit.Weighed, CasesOf, AllLeast, LeastShared, Joint;
    assert st.cases[0].table.q == Qualities(st.choices);
  }

  /** Somebody keeps contacts. */
  lemma {:induction false} SomebodyIsKept(d: Draft, people: seq<Person>, fos: seq<Fo>, t: Trimmed)
    requires ValidDraft(Unpinned(d)) && people != [] && QueuesOf(Unpinned(d), people, fos).stray == []
    requires Partition(QueuesOf(Unpinned(d), people, fos).roster, t)
    ensures FinalPlace(t.kept, |t.kept|) >= 1
  {
    hide ValidDraft, QueuesOf, Everyone, FinalPlace;
    var roster := QueuesOf(Unpinned(d), people, fos).roster;
    QueuesKeepEveryone(Unpinned(d), people, fos);
    assert people[0] in multiset(people);
    assert people[0] in multiset(Everyone(roster));
    var i := FromEveryone(roster, people[0]);
    PlacesGrow(t.kept, i, |t.kept|);
  }

  /** The queues cut are short enough, and everyone asks for at least one a day. */
  lemma {:induction false} CutFits(d: Draft, roster: Roster, t: Trimmed, room: nat)
    requires ValidDraft(Unpinned(d)) && |roster| == |d.fos| && Partition(roster, t)
    requires forall i :: 0 <= i < |roster| ==> |t.kept[i]| == if |roster[i]| > room then room else |roster[i]|
    ensures |t.kept| == |d.fos| && forall i :: 0 <= i < |d.fos| ==> d.fos[i].batchSize >= 1 && |t.kept[i]| <= room
  {
    hide ValidFlow, Everyone;
  }

  /** Everything is ready to be planned again, at the paces settled on. */
  lemma {:induction false} PicksAreReady(d: Draft, people: seq<Person>, fos: seq<Fo>, flows: seq<Flow>, main: nat, picks: seq<Pick>, s: Shape, t: Trimmed)
    requires ValidDraft(Unpinned(d)) && ValidDraft(d.(flows := s.flows, assignments := s.assignments, pins := map[]))
    requires OnePerId(multiset(people)) && people != [] && QueuesOf(Unpinned(d), people, fos).stray == []
    requires Partition(QueuesOf(Unpinned(d), people, fos).roster, t) && Reshaping.Chosen(d.fos, t.kept, flows, main, picks) && t.paces == PacesOf(picks)
    ensures Ready(d, people, fos, s, t)
  {
    hide ValidDraft, ValidFlow, QueuesOf, OnePerId, Everyone;
  }

  /** What the final draft says of everyone who keeps contacts. */
  lemma {:induction false} DraftFollows(d: Draft, people: seq<Person>, fos: seq<Fo>, s: Shape, t: Trimmed, st: Study)
    requires Ready(d, people, fos, s, t)
    requires var flows, picks := FlowsOfChoices(st.choices), Everybody(t.kept, st);
      && Reshaping.Chosen(d.fos, t.kept, flows, st.main, picks) && t.paces == PacesOf(picks)
      && FlowsBuilt(d.fos, t.kept, flows, st.main, picks, |d.fos|, s.flows) && PeopleAssigned(d.fos, t.kept, picks, |d.fos|, s.assignments)
    ensures FollowsStudy(FinalDraft(d, s, QueuesOf(Unpinned(d), people, fos).roster, t), d.fos, t.kept, st)
  {
    hide ValidDraft, ValidFlow, QueuesOf, OnePerId, Everyone, FinalPlace, FinalDraft, FlowsBuilt, PeopleAssigned, FlowId, Steps, PickAt;
    var flows, picks := FlowsOfChoices(st.choices), Everybody(t.kept, st);
    var f := FinalDraft(d, s, QueuesOf(Unpinned(d), people, fos).roster, t);
    SameFlowLists(d, people, fos, s, t);
    SomeFlow(d.fos, t.kept, flows, st.main, picks, s.flows);
    forall i | 0 <= i < |t.kept| && t.kept[i] != []
      ensures FinalPlace(t.kept, i) < |f.fos| && f.fos[FinalPlace(t.kept, i)] == Quota(d.fos[i].id, PickAt(t.kept, st, i).pace)
      ensures forall p :: p in t.kept[i] ==> Steps(f, FlowId(f, p)) == FlowAt(st.choices, PickAt(t.kept, st, i).i)
    {
      FinalPlaceListed(d, people, fos, s, t, i);
      forall p | p in t.kept[i]
        ensures Steps(f, FlowId(f, p)) == FlowAt(st.choices, PickAt(t.kept, st, i).i)
      {
        EveryoneFollowsTheirPick(d, people, fos, flows, st.main, picks, s, t, i, p);
      }
    }
  }

  lemma {:induction false} SomeFlow(fos: seq<Quota>, kept: Roster, flows: seq<Flow>, main: nat, picks: seq<Pick>, list: seq<Outreach>)
    requires Reshaping.Chosen(fos, kept, flows, main, picks) && FlowsBuilt(fos, kept, flows, main, picks, |fos|, list)
    ensures |list| >= 1
  {
  }

  /**
   * fitCampaign where the studio builds the outreach, from the queues to the calendar: cut the queues
   * to 500 a working day, weigh every recipe that fits for every FO, choose between one outreach for
   * all and some of their own, and plan. Whatever it hands back keeps every contact once, in the plan
   * or the overflow; no FO with contacts is left off: each one's planned contacts are the first of
   * their queue, all of it unless it passes 500 a working day, at the pace and on the outreach the
   * study settled on, within what they are allowed. And it hands a plan back unless there is nothing
   * to plan, a longer queue may not be cut, or the only plan found for some FO fills every day and an
   * FO before them outran that search.
   */
  method FitReshaping(d: Draft, people: seq<Person>, fos: seq<Fo>, ask: nat -> Answers, spent: nat -> nat -> bool, allowTrim: bool)
    returns (r: Option<Fitted>, kept: Roster, st: Study)
    requires ValidDraft(Unpinned(d)) && OnePerId(multiset(people)) && Sincere(WindowOf(d), ask)
    ensures r.Some? ==> var roster := QueuesOf(Unpinned(d), people, fos).roster; var c := r.value.calendar;
      && |kept| == |roster| && (forall i :: 0 <= i < |roster| ==> kept[i] == Front(roster[i], MAX_PACE * |WindowOf(d).Days()|))
      && Studied(WindowOf(d), d.fos, kept, ask, st) && FollowsStudy(r.value.draft, d.fos, kept, st)
      && c.valid && multiset(Planned(c.batches)) + multiset(r.value.overflow) == multiset(people)
      && (!allowTrim ==> r.value.overflow == [])
      && forall i :: 0 <= i < |roster| && roster[i] != [] ==> kept[i] != [] && multiset(Planned(Mine(c.batches, d.fos[i].id))) == multiset(kept[i])
    ensures r.None? ==>
      || WindowOf(d).Days() == [] || people == [] || QueuesOf(Unpinned(d), people, fos).stray != []
      || (!allowTrim && exists i :: 0 <= i < |d.fos| && |QueuesOf(Unpinned(d), people, fos).roster[i]| > MAX_PACE * |WindowOf(d).Days()|)
      || (|kept| == |d.fos| && Studied(WindowOf(d), d.fos, kept, ask, st) && AllValid(StudyFlows(kept, st)) && !InTime(WindowOf(d), kept, StudyFlows(kept, st)))
  {
    hide ValidDraft, ValidFlow, WorkingDays, QueuesOf, Mine, Planned, OnePerId, Everyone, FlowsBuilt, PeopleAssigned, Partition, Sincere, Studied, FollowsStudy, AllValid, AllFitted, InTime, FinalDraft, FinalFlows, FinalPlace, StudyFlows, Reshaping.Chosen, PickAt;
    kept, st := [], Study([], [], [], None, 0, [], false);
    var days := CalendarDays(d.start, d.end);
    if days == [] || people == [] {
      return None, kept, st;
    }
    var q := CampaignQueues(Unpinned(d), people, fos);
    if q.stray != [] {
      return None, kept, st;
    }
    var cut := CutAll(WindowOf(d), Unpinned(d), q.roster, allowTrim);
    if cut.None? {
      return None, kept, st;
    }
    kept := cut.value.kept;
    SomebodyIsKept(d, people, fos, cut.value);
    CutFits(d, q.roster, cut.value, MAX_PACE * |WindowOf(d).Days()|);
    st := Decide(WindowOf(d), d.fos, cut.value.kept, ask, spent);
    StudyIsChosen(WindowOf(d), d.fos, cut.value.kept, ask, st);
    var picks := Everybody(cut.value.kept, st);
    var t := cut.value.(paces := PacesOf(picks));
    StillPartition(q.roster, cut.value, t);
    DistinctInDraft(d);
    KeptAreOne(d, people, fos, t);
    var s := BuildShape(d.fos, t.kept, FlowsOfChoices(st.choices), st.main, picks);
    ShapeIsValid(d, t.kept, FlowsOfChoices(st.choices), st.main, picks, s);
    PicksAreReady(d, people, fos, FlowsOfChoices(st.choices), st.main, picks, s, t);
    FinalDraftIsValid(d, people, fos, s, t);
    StudyFlowsAreFinal(d, people, fos, FlowsOfChoices(st.choices), st.main, picks, s, t, StudyFlows(t.kept, st));
    r := Finish(d, people, fos, s, t, StudyFlows(t.kept, st));
    if r.Some? {
      KeptAreFronts(q.roster, t, MAX_PACE * |WindowOf(d).Days()|);
      DraftFollows(d, people, fos, s, t, st);
      if !allowTrim {
        assert t.kept == q.roster;
        NothingLeftOver(q.roster, t);
      }
    }
  }
}
