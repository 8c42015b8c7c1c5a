/** One outreach for the team, or some of their own. */
module Split {
  // The last choices fitCampaign makes before planning, src/lib/campaign-fit.ts.

  import opened Days
  import opened Queues
  import opened BranchBound
  import opened Starts
  import opened Paces
  import StandIns
  import Fit

  /** An FO being fitted: what each outreach gives them, the lowest pace each could need, and the pace asked for. */
  datatype Case = Case(table: Table, floorPace: seq<Option<nat>>, target: nat)

  ghost predicate ValidCase(c: Case) {
    && ValidTable(c.table) && |c.floorPace| == |c.table.q| && c.target >= 1
    && forall i :: 0 <= i < |c.table.one| && c.table.one[i].Some? ==>
         && c.floorPace[i].Some? && c.floorPace[i].value <= c.table.one[i].value.pace
         && (c.table.one[i].value.excess == 0.0 <==> c.table.one[i].value.pace <= c.target)
  }

  /** A tenth above a pace, rounded down, and never below the request. */
  function Tenth(target: nat, pace: nat): nat {
    if pace * 11 / 10 < target then target else pace * 11 / 10
  }

  /** Never below the request; above it, the most that is no more than eleven tenths of the pace. */
  lemma {:induction false} TenthIsWithin(target: nat, pace: nat, other: nat)
    ensures target <= Tenth(target, pace)
    ensures target < other ==> (other <= Tenth(target, pace) <==> 10 * other <= 11 * pace)
  {
  }

  function PaceOf(c: Case, b: Best): nat
    requires c.table.days >= 1 && |c.table.one| == |c.table.q| && IsBest(c.table, b.i, b)
  {
    c.table.one[b.i].value.pace
  }

  /** The paces as good as an FO's lowest: the request when it works, otherwise within a tenth. */
  function Allowance(c: Case, alone: Best): nat
    requires c.table.days >= 1 && |c.table.one| == |c.table.q| && IsBest(c.table, alone.i, alone)
  {
    if alone.excess == 0.0 then c.target else Tenth(c.target, PaceOf(c, alone))
  }

  lemma {:induction false} AllowsItself(c: Case, alone: Best)
    requires ValidCase(c) && IsBest(c.table, alone.i, alone)
    ensures PaceOf(c, alone) <= Allowance(c, alone)
  {
    hide Score;
  }

  /** Outreach `i` keeps the FO within `allow`. */
  predicate Within(c: Case, i: nat, allow: nat)
    requires i < |c.table.one|
  {
    c.table.one[i].Some? && c.table.one[i].value.pace <= allow
  }

  function ScoreOf(c: Case, i: nat): real
    requires c.table.days >= 1 && i < |c.table.one| == |c.table.q| && c.table.one[i].Some?
  {
    Score(c.table, i, c.table.one[i].value.quiet as real)
  }

  // ---------------------------------------------------------------- outreaches by quality alone

  function NoFloors(n: nat): (f: seq<Option<real>>)
    ensures |f| == n
  {
    seq(n, _ => Some(0.0))
  }

  function ByQuality(q: seq<real>): seq<nat> {
    SortedIndexes(NoFloors(|q|), q)
  }

  lemma {:induction false} ByQualityVisits(q: seq<real>)
    ensures forall i :: 0 <= i < |q| ==> i in ByQuality(q)
    ensures forall k :: 0 <= k < |ByQuality(q)| ==> ByQuality(q)[k] < |q|
    ensures forall k, l :: 0 <= k < l < |ByQuality(q)| ==> q[ByQuality(q)[k]] <= q[ByQuality(q)[l]]
  {
    SortedIndexesVisit(NoFloors(|q|), q);
    forall k, l | 0 <= k < l < |ByQuality(q)|
      ensures q[ByQuality(q)[k]] <= q[ByQuality(q)[l]]
    {
      assert Sooner(NoFloors(|q|), q, ByQuality(q)[k], ByQuality(q)[l]);
    }
  }

  /** Nothing visited within the allowance has a better score. */
  ghost predicate BestWithin(c: Case, allow: nat, seen: seq<nat>, b: Best)
    requires ValidCase(c)
  {
    && IsBest(c.table, b.i, b) && PaceOf(c, b) <= allow
    && forall k :: 0 <= k < |seen| ==> seen[k] < |c.table.one| && (Within(c, seen[k], allow) ==> b.score <= ScoreOf(c, seen[k]))
  }

  /**
   * roomy: the outreach with the best score among those that keep the FO within their allowance.
   * The loop stops at a quality no better than the best score and skips what the floors rule out.
   */
  method Roomy(c: Case, alone: Best, spent: nat -> bool) returns (b: Best, cut: bool)
    requires ValidCase(c) && IsBest(c.table, alone.i, alone)
    ensures IsBest(c.table, b.i, b) && PaceOf(c, b) <= Allowance(c, alone) && b.score <= alone.score
    ensures !cut ==> forall i :: 0 <= i < |c.table.one| && Within(c, i, Allowance(c, alone)) ==> b.score <= ScoreOf(c, i)
  {
    hide Score, SortedIndexes, ByQuality, Allowance;
    b, cut := alone, false;
    var allow := Allowance(c, alone);
    AllowsItself(c, alone);
    var order := ByQuality(c.table.q);
    ByQualityVisits(c.table.q);
    var n := 0;
    while n < |order|
      invariant 0 <= n <= |order| && b.score <= alone.score
      invariant BestWithin(c, allow, order[..n], b)
    {
      var i := order[n];
      if c.table.q[i] >= b.score {
        break;
      }
      if spent(n) {
        cut := true;
        return;
      }
      assert order[..n + 1] == order[..n] + [i];
      if c.floorPace[i].Some? && c.floorPace[i].value <= allow && Within(c, i, allow) && ScoreOf(c, i) < b.score {
        b := Best(i, c.table.one[i].value.excess, c.table.one[i].value.quiet, ScoreOf(c, i));
      }
      n := n + 1;
    }
    forall i | 0 <= i < |c.table.one| && Within(c, i, allow)
      ensures b.score <= ScoreOf(c, i)
    {
      assert i in order;
      var k :| 0 <= k < |order| && order[k] == i;
      if k < n {
        assert order[..n][k] == i;
      } else {
        ScoreAtLeastQ(c.table, i, c.table.one[i].value.quiet as real);
        assert k == n || c.table.q[order[n]] <= c.table.q[order[k]];
      }
    }
  }

  // ---------------------------------------------------------------- one outreach for everyone

  /** Every FO is weighed over the same outreaches. */
  predicate Sized(cases: seq<Case>) {
    && cases != []
    && forall k :: 0 <= k < |cases| ==> |cases[k].table.one| == |cases[k].floorPace| == |cases[0].table.q|
  }

  ghost predicate ValidCases(cases: seq<Case>) {
    && Sized(cases)
    && forall k :: 0 <= k < |cases| ==> ValidCase(cases[k]) && cases[k].table.q == cases[0].table.q && cases[k].table.days == cases[0].table.days
  }

  function Tables(cases: seq<Case>): (team: seq<Table>)
    ensures |team| == |cases|
  {
    seq(|cases|, k requires 0 <= k < |cases| => cases[k].table)
  }

  lemma {:induction false} TablesAreTeam(cases: seq<Case>)
    requires ValidCases(cases)
    ensures ValidTeam(Tables(cases)) && Tables(cases)[0].q == cases[0].table.q && cases[0].table.days >= 1
  {
  }

  /** The paces outreach `i` would give the team stay within their allowances. */
  predicate AllWithin(cases: seq<Case>, i: nat, allow: seq<nat>)
    requires Sized(cases) && |allow| == |cases| && i < |cases[0].table.q|
  {
    forall k :: 0 <= k < |cases| ==> Within(cases[k], i, allow[k])
  }

  predicate FloorsWithin(cases: seq<Case>, i: nat, allow: seq<nat>)
    requires Sized(cases) && |allow| == |cases| && i < |cases[0].table.q|
  {
    forall k :: 0 <= k < |cases| ==> cases[k].floorPace[i].Some? && cases[k].floorPace[i].value <= allow[k]
  }

  /** Outreach `i` can be scheduled for everyone. */
  predicate ServesAll(cases: seq<Case>, i: nat)
    requires Sized(cases) && i < |cases[0].table.q|
  {
    forall k :: 0 <= k < |cases| ==> cases[k].table.one[i].Some?
  }

  /** Each FO's room above the pace the shared outreach gives them. */
  function Room(cases: seq<Case>, i: nat): (allow: seq<nat>)
    requires Sized(cases) && i < |cases[0].table.q| && ServesAll(cases, i)
    ensures |allow| == |cases|
    ensures AllWithin(cases, i, allow)
  {
    seq(|cases|, k requires 0 <= k < |cases| => Tenth(cases[k].target, cases[k].table.one[i].value.pace))
  }

  /** What the shared outreach `i` gives the team. */
  ghost function Joint(cases: seq<Case>, i: nat): Option<Shared>
    requires ValidCases(cases) && i < |cases[0].table.q|
  {
    TablesAreTeam(cases);
    Together(Tables(cases), i)
  }

  ghost predicate Takes(cases: seq<Case>, s: Shared)
    requires ValidCases(cases)
  {
    s.i < |cases[0].table.q| && Joint(cases, s.i) == Some(s)
  }

  lemma {:induction false} JointServesAll(cases: seq<Case>, i: nat)
    requires ValidCases(cases) && i < |cases[0].table.q|
    ensures Joint(cases, i).Some? ==> ServesAll(cases, i) && Joint(cases, i).value.i == i && Joint(cases, i).value.score >= cases[0].table.q[i]
  {
    hide Score, WorstOf, TotalOf, QuietOf, ValidTable;
    TablesAreTeam(cases);
    var team := Tables(cases);
    if AllServed(team, i) {
      forall k | 0 <= k < |cases|
        ensures cases[k].table.one[i].Some?
      {
        assert team[k].one[i].Some?;
      }
      var quiet := QuietOf(Evals(team, i)) as real;
      DivNonNegative(quiet, |team| as real);
      ScoreAtLeastQ(team[0], i, quiet / (|team| as real));
    }
  }

  /** Outreach `i` leaves someone without room, or has no better a score. */
  ghost predicate NoBetterWithin(cases: seq<Case>, allow: seq<nat>, i: nat, s: Shared)
    requires ValidCases(cases) && |allow| == |cases| && i < |cases[0].table.q|
  {
    AllWithin(cases, i, allow) && Joint(cases, i).Some? ==> s.score <= Joint(cases, i).value.score
  }

  /** An outreach whose floors already pass someone's room cannot keep them within it. */
  lemma {:induction false} SkippedIsNotWithin(cases: seq<Case>, i: nat, allow: seq<nat>)
    requires ValidCases(cases) && |allow| == |cases| && i < |cases[0].table.q|
    ensures AllWithin(cases, i, allow) ==> FloorsWithin(cases, i, allow)
  {
    hide ValidTable;
    forall k | 0 <= k < |cases|
      ensures Within(cases[k], i, allow[k]) ==> cases[k].floorPace[i].Some? && cases[k].floorPace[i].value <= allow[k]
    {
      assert ValidCase(cases[k]);
    }
  }

  /**
   * When paces must rise, the shared outreach with the best score among those that keep everyone
   * within a tenth of the pace the lowest one gives them.
   */
  method WithRoom(cases: seq<Case>, star: Shared, spent: nat -> bool) returns (s: Shared, cut: bool)
    requires ValidCases(cases) && Takes(cases, star)
    ensures Takes(cases, s) && s.score <= star.score && ServesAll(cases, star.i)
    ensures AllWithin(cases, s.i, Room(cases, star.i))
    ensures !cut ==> forall i :: 0 <= i < |cases[0].table.q| ==> NoBetterWithin(cases, Room(cases, star.i), i, s)
  {
    hide Together, ByQuality, AllWithin, FloorsWithin, ServesAll, Room, ValidCase, ValidTeam, NoBetterWithin;
    JointServesAll(cases, star.i);
    TablesAreTeam(cases);
    var allow, q := Room(cases, star.i), cases[0].table.q;
    s, cut := star, false;
    var order := ByQuality(q);
    ByQualityVisits(q);
    var n := 0;
    while n < |order|
      invariant 0 <= n <= |order| && s.score <= star.score && Takes(cases, s) && AllWithin(cases, s.i, allow)
      invariant forall k :: 0 <= k < n ==> NoBetterWithin(cases, allow, order[k], s)
    {
      var i := order[n];
      if q[i] >= s.score {
        break;
      }
      if spent(n) {
        cut := true;
        return;
      }
      var t := None;
      if FloorsWithin(cases, i, allow) {
        t := Together(Tables(cases), i);
      }
      OneVisit(cases, allow, i, s, t);
      if t.Some? && AllWithin(cases, i, allow) && t.value.score < s.score {
        JointServesAll(cases, i);
        forall k | 0 <= k < n
          ensures NoBetterWithin(cases, allow, order[k], t.value)
        {
          StillNoBetter(cases, allow, order[k], s, t.value);
        }
        s := t.value;
      }
      n := n + 1;
    }
    forall i | 0 <= i < |q|
      ensures NoBetterWithin(cases, allow, i, s)
    {
      assert i in order;
      var k :| 0 <= k < |order| && order[k] == i;
      if k >= n {
        assert k == n || q[order[n]] <= q[order[k]];
        PastTheBest(cases, allow, i, s);
      }
    }
  }

  lemma {:induction false} OneVisit(cases: seq<Case>, allow: seq<nat>, i: nat, s: Shared, t: Option<Shared>)
    requires ValidCases(cases) && |allow| == |cases| && i < |cases[0].table.q|
    requires t == if FloorsWithin(cases, i, allow) then Joint(cases, i) else None
    ensures t.Some? ==> Joint(cases, i) == t
    ensures var better := t.Some? && AllWithin(cases, i, allow) && t.value.score < s.score;
      NoBetterWithin(cases, allow, i, if better then t.value else s)
  {
    hide Joint, AllWithin, FloorsWithin;
    SkippedIsNotWithin(cases, i, allow);
  }

  lemma {:induction false} StillNoBetter(cases: seq<Case>, allow: seq<nat>, i: nat, s: Shared, t: Shared)
    requires ValidCases(cases) && |allow| == |cases| && i < |cases[0].table.q| && NoBetterWithin(cases, allow, i, s)
    requires t.score <= s.score
    ensures NoBetterWithin(cases, allow, i, t)
  {
    hide Joint, AllWithin;
  }

  /** No outreach whose quality alone is no better than the best score can beat it. */
  lemma {:induction false} PastTheBest(cases: seq<Case>, allow: seq<nat>, i: nat, s: Shared)
    requires ValidCases(cases) && |allow| == |cases| && i < |cases[0].table.q| && s.score <= cases[0].table.q[i]
    ensures NoBetterWithin(cases, allow, i, s)
  {
    hide Joint, AllWithin;
    JointServesAll(cases, i);
  }

  // ---------------------------------------------------------------- one outreach, or some of their own

  /** The outreach an FO ends on, whether it is one of their own, and their pace. */
  datatype Pick = Pick(i: nat, own: bool, pace: nat)

  /** Each FO's evaluation alone, as the loop behind `alone` leaves it. */
  ghost predicate Alones(cases: seq<Case>, alone: seq<Best>)
    requires ValidCases(cases)
  {
    && |alone| == |cases|
    && forall k :: 0 <= k < |cases| ==> IsBest(cases[k].table, alone[k].i, alone[k])
  }

  /** A pick is an outreach the FO was really evaluated on, at the pace it gives them, within `allow`. */
  predicate Keeps(c: Case, p: Pick, allow: nat) {
    p.i < |c.table.one| && Within(c, p.i, allow) && p.pace == c.table.one[p.i].value.pace
  }

  /** The FO with most contacts; the first of equals by name of id. */
  method Lead(lengths: seq<nat>, ids: seq<nat>) returns (lead: nat)
    requires lengths != [] && |ids| == |lengths|
    ensures lead < |lengths| && forall k :: 0 <= k < |lengths| ==>
      lengths[k] < lengths[lead] || (lengths[k] == lengths[lead] && ids[lead] <= ids[k])
  {
    lead := 0;
    for k := 1 to |lengths|
      invariant lead < k
      invariant forall j :: 0 <= j < k ==> lengths[j] < lengths[lead] || (lengths[j] == lengths[lead] && ids[lead] <= ids[j])
    {
      if lengths[k] > lengths[lead] || (lengths[k] == lengths[lead] && ids[k] < ids[lead]) {
        lead := k;
      }
    }
  }

  /** FO `k`'s pick after the split: Default when it keeps them within their allowance, otherwise one of their own that does. */
  ghost predicate Fair(cases: seq<Case>, alone: seq<Best>, main: nat, k: nat, p: Pick)
    requires ValidCases(cases) && Alones(cases, alone) && k < |cases| && main < |cases[0].table.q|
  {
    && Keeps(cases[k], p, Allowance(cases[k], alone[k]))
    && (!p.own ==> p.i == main)
    && (p.own <==> !Within(cases[k], main, Allowance(cases[k], alone[k])))
  }

  /**
   * The split: the lead FO's outreach is Default, and every FO it would slow down gets one of their
   * own. Nobody is ever slowed past their allowance.
   */
  method SplitUp(cases: seq<Case>, alone: seq<Best>, lead: nat, spent: nat -> bool) returns (main: nat, picks: seq<Pick>)
    requires ValidCases(cases) && Alones(cases, alone) && lead < |cases|
    ensures main < |cases[0].table.q| && |picks| == |cases| && !picks[lead].own
    ensures forall k :: 0 <= k < |cases| ==> Fair(cases, alone, main, k, picks[k])
  {
    hide Score, ValidCase, Fair;
    AloneIsCase(cases, alone, lead);
    var onMain, cutMain := Roomy(cases[lead], alone[lead], spent);
    main := onMain.i;
    picks := [];
    for k := 0 to |cases|
      invariant |picks| == k
      invariant forall j :: 0 <= j < k ==> Fair(cases, alone, main, j, picks[j])
    {
      AloneIsCase(cases, alone, k);
      var pick;
      if Within(cases[k], main, Allowance(cases[k], alone[k])) {
        pick := Pick(main, false, cases[k].table.one[main].value.pace);
      } else {
        var own, cut := Roomy(cases[k], alone[k], spent);
        pick := Pick(own.i, true, PaceOf(cases[k], own));
      }
      IsFair(cases, alone, main, k, pick);
      picks := picks + [pick];
    }
    LeadIsFair(cases, alone, main, lead, onMain, picks[lead]);
  }

  lemma {:induction false} AloneIsCase(cases: seq<Case>, alone: seq<Best>, k: nat)
    requires ValidCases(cases) && Alones(cases, alone) && k < |cases|
    ensures ValidCase(cases[k]) && cases[k].table.days >= 1 && IsBest(cases[k].table, alone[k].i, alone[k])
  {
    hide Score;
  }

  lemma {:induction false} IsFair(cases: seq<Case>, alone: seq<Best>, main: nat, k: nat, p: Pick)
    requires ValidCases(cases) && Alones(cases, alone) && k < |cases| && main < |cases[0].table.q|
    requires ValidCase(cases[k]) && IsBest(cases[k].table, alone[k].i, alone[k])
    requires Keeps(cases[k], p, Allowance(cases[k], alone[k])) && (p.own <==> !Within(cases[k], main, Allowance(cases[k], alone[k])))
    requires !p.own ==> p.i == main
    ensures Fair(cases, alone, main, k, p)
  {
  }

  lemma {:induction false} LeadIsFair(cases: seq<Case>, alone: seq<Best>, main: nat, k: nat, b: Best, p: Pick)
    requires ValidCases(cases) && Alones(cases, alone) && k < |cases| && main < |cases[0].table.q| && b.i == main
    requires ValidCase(cases[k]) && IsBest(cases[k].table, b.i, b) && PaceOf(cases[k], b) <= Allowance(cases[k], alone[k])
    requires Fair(cases, alone, main, k, p)
    ensures !p.own
  {
  }

  /** How much worse than the split a shared outreach may be: rounding only. */
  const ROUNDING: real := 0.000000001

  function WorstAlone(alone: seq<Best>): real
    requires alone != []
  {
    if |alone| == 1 then alone[0].excess
    else
      var before := WorstAlone(alone[..|alone| - 1]);
      if before < alone[|alone| - 1].excess then alone[|alone| - 1].excess else before
  }

  /** The team shares an outreach that gives nobody a worse excess than somebody needs alone. */
  ghost predicate SharesWell(cases: seq<Case>, alone: seq<Best>, star: Option<Shared>, picks: seq<Pick>)
    requires ValidCases(cases) && Alones(cases, alone) && |picks| == |cases| && (star.Some? ==> Takes(cases, star.value))
  {
    && star.Some? && star.value.worst <= WorstAlone(alone) + ROUNDING
    && ServesAll(cases, star.value.i)
    && forall k :: 0 <= k < |cases| ==> picks[k].i == picks[0].i && !picks[k].own && Keeps(cases[k], picks[k], Room(cases, star.value.i)[k])
  }

  /**
   * The last choice: one outreach for everyone if its lowest worst excess is no worse than what some
   * FO needs alone, otherwise the split. Either way every FO ends on an outreach they were evaluated
   * on, within a tenth of the lowest pace it, or their own best, gives them, or at their request.
   */
  method ChooseOutreach(cases: seq<Case>, alone: seq<Best>, star: Option<Shared>, lengths: seq<nat>, ids: seq<nat>, spent: nat -> bool)
    returns (main: nat, picks: seq<Pick>)
    requires ValidCases(cases) && Alones(cases, alone) && |lengths| == |ids| == |cases|
    requires star.Some? ==> Takes(cases, star.value)
    ensures main < |cases[0].table.q| && |picks| == |cases|
    ensures forall k :: 0 <= k < |cases| && !picks[k].own ==> picks[k].i == main
    ensures if star.Some? && star.value.worst <= WorstAlone(alone) + ROUNDING then SharesWell(cases, alone, star, picks)
      else forall k :: 0 <= k < |cases| ==> Fair(cases, alone, main, k, picks[k])
  {
    hide Score, Allowance, ValidCase, Joint, Within, Together;
    if star.Some? && star.value.worst <= WorstAlone(alone) + ROUNDING {
      var shared := star.value;
      JointServesAll(cases, star.value.i);
      if star.value.worst > 0.0 {
        var cut;
        shared, cut := WithRoom(cases, star.value, spent);
      }
      JointServesAll(cases, shared.i);
      main := shared.i;
      picks := seq(|cases|, k requires 0 <= k < |cases| => Pick(main, false, cases[k].table.one[main].value.pace));
    } else {
      var lead := Lead(lengths, ids);
      main, picks := SplitUp(cases, alone, lead, spent);
    }
  }

  // ---------------------------------------------------------------- the cases the fitter builds

  ghost function CaseFor(w: Window, choices: seq<Fit.Choice>, length: nat, target: nat, schedules: nat -> Schedule): Case
    requires Fit.ValidChoices(choices) && length >= 1 && target >= 1
  {
    Case(Fit.TableFor(w, choices, length, target, schedules),
      seq(|choices|, i requires 0 <= i < |choices| => Fit.FloorPace(w, choices[i].flow, length)), target)
  }

  /** one, for every outreach: the pace it gives an FO and how far that is above their request. */
  method Weigh(w: Window, choices: seq<Fit.Choice>, length: nat, target: nat, schedules: nat -> Schedule) returns (c: Case)
    requires |w.Days()| >= 1 && Fit.ValidChoices(choices) && length >= 1 && target >= 1
    ensures c == CaseFor(w, choices, length, target, schedules)
  {
    hide ValidFlow, WorkingDays, ValidDraft, PaceFor, Fit.FloorPace, Fit.ExcessOf, Fit.ShapeRuns, StartsOf;
    var days := CalendarDays(w.start, w.end);
    var q, floor, one, paces := [], [], [], [];
    for i := 0 to |choices|
      invariant |q| == |floor| == |one| == |paces| == i
      invariant forall j :: 0 <= j < i ==> q[j] == choices[j].q && paces[j] == Fit.FloorPace(w, choices[j].flow, length)
      invariant forall j :: 0 <= j < i ==> floor[j] == Fit.FloorExcess(w, choices[j].flow, length, target)
      invariant forall j :: 0 <= j < i ==> one[j] == Fit.One(w, choices[j], length, target, schedules(j))
    {
      var f := choices[i].flow;
      StandIns.StandInIsValid(w, f);
      ShapeRunsAreValid(length);
      var r := ChoosePace(w, Fit.ShapeDraft(w, f), Fit.ShapeRuns(length), target, schedules(i), Fit.SHAPE_TRIES);
      var e := match r
        case Pace(pace, quiet) => Some(Eval(pace, Fit.ExcessOf(pace, target), quiet))
        case NoPace(_) => None;
      q, one := q + [choices[i].q], one + [e];
      paces, floor := paces + [Fit.FloorPace(w, f, length)], floor + [Fit.FloorExcess(w, f, length, target)];
    }
    c := Case(Table(|days|, q, floor, one), paces, target);
  }

  lemma {:induction false} ShapeRunsAreValid(length: nat)
    requires length >= 1
    ensures ValidRuns(Fit.ShapeRuns(length))
  {
  }

  /** What the fitter evaluates for an FO is a case these choices may rely on. */
  lemma {:induction false} CaseIsValid(w: Window, choices: seq<Fit.Choice>, length: nat, target: nat, schedules: nat -> Schedule)
    requires Fit.ValidChoices(choices) && length >= 1 && target >= 1 && |w.Days()| >= 1
    ensures ValidCase(CaseFor(w, choices, length, target, schedules))
  {
    hide ValidFlow, WorkingDays, Fit.FloorPace, Fit.ExcessOf, PaceFor, ValidDraft, ValidTable;
    Fit.TableIsValid(w, choices, length, target, schedules);
    var c := CaseFor(w, choices, length, target, schedules);
    forall i | 0 <= i < |choices| && c.table.one[i].Some?
      ensures c.floorPace[i].Some? && c.floorPace[i].value <= c.table.one[i].value.pace
      ensures c.table.one[i].value.excess == 0.0 <==> c.table.one[i].value.pace <= target
    {
      Fit.PaceMeetsFloor(w, choices[i].flow, length, target, schedules(i), Fit.SHAPE_TRIES);
      NoExcess(c.table.one[i].value.pace, target);
    }
  }

  lemma {:induction false} NoExcess(pace: nat, target: nat)
    requires target >= 1
    ensures Fit.ExcessOf(pace, target) == 0.0 <==> pace <= target
  {
    if pace > target {
      assert ((pace - target) as real) / (target as real) * (target as real) == (pace - target) as real;
    }
  }
}
