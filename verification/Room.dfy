/**
 * How much a window can hold: the counts behind the early rejections of the planner
 * (src/lib/campaign-planner.ts) and of the fitter (src/lib/campaign-fit.ts), and what they say about
 * every arrangement of an FO's batches.
 */
module Room {
  import opened Days
  import opened Placement
  import opened Search
  import opened Starts

  /** One outreach per batch, in queue order. */
  type Flows = seq<Flow>

  predicate ValidFlows(flows: Flows) {
    forall i :: 0 <= i < |flows| ==> ValidFlow(flows[i])
  }

  /** An arrangement of an FO's batches: each on a start of its own outreach, all of them compatible. */
  ghost predicate Arrangement(w: Window, flows: Flows, plan: seq<Start>)
    requires ValidFlows(flows)
  {
    && |plan| == |flows|
    && (forall i :: 0 <= i < |plan| ==> IsStart(w, flows[i], plan[i]))
    && Compatible(plan)
  }

  function BoardOf(w: Window, flows: Flows): Board
    requires ValidFlows(flows)
  {
    Board(w.Days(), seq(|flows|, i requires 0 <= i < |flows| => StartsOf(w, flows[i])))
  }

  /** The search's board allows exactly the arrangements. */
  lemma {:induction false} BoardAllows(w: Window, flows: Flows, plan: seq<Start>)
    requires ValidFlows(flows)
    ensures Legal(BoardOf(w, flows), plan) <==> Arrangement(w, flows, plan)
  {
    hide IsStart, StartsOf, Compatible, ValidOptions, ValidFlow;
    forall i | 0 <= i < |flows|
      ensures forall o :: o in StartsOf(w, flows[i]) <==> IsStart(w, flows[i], o)
    {
      StartsAreOptions(w, flows[i]);
    }
  }

  /** When every batch has a start, the board is well formed. */
  lemma {:induction false} BoardIsValid(w: Window, flows: Flows)
    requires ValidFlows(flows) && |flows| >= 1 && |w.Days()| >= 1
    requires forall i :: 0 <= i < |flows| ==> StartsOf(w, flows[i]) != []
    ensures ValidBoard(BoardOf(w, flows))
    ensures forall i :: 0 <= i < |flows| ==> |BoardOf(w, flows).options[i][0].dates| == |flows[i]|
  {
    hide IsStart, StartsOf, ValidOptions, ValidFlow, Working;
    WorkingDaysExact(w.start, w.end);
    forall i | 0 <= i < |flows|
      ensures ValidOptions(w.Days(), StartsOf(w, flows[i])) && |StartsOf(w, flows[i])[0].dates| == |flows[i]|
    {
      StartsAreOptions(w, flows[i]);
      assert StartsOf(w, flows[i])[0] in StartsOf(w, flows[i]);
    }
  }

  // ---------------------------------------------------------------- counting touchpoints

  function Touches(flows: Flows): nat {
    if flows == [] then 0 else Touches(flows[..|flows| - 1]) + |flows[|flows| - 1]|
  }

  /** Everything the table holds on the first `n` working days. */
  function Held(b: Board, slots: Slots, n: nat): nat
    requires n <= |b.days| && OnBoard(b, slots)
  {
    if n == 0 then 0 else Held(b, slots, n - 1) + |slots[b.days[n - 1]]|
  }

  lemma {:induction false} HeldChanges(b: Board, slots: Slots, x: nat, held: seq<nat>, n: nat)
    requires n <= |b.days| && x < |b.days| && OnBoard(b, slots) && Ascending(b.days)
    ensures Held(b, slots[b.days[x] := held], n) == Held(b, slots, n) + (if x < n then |held| - |slots[b.days[x]]| else 0)
  {
    if n > 0 {
      HeldChanges(b, slots, x, held, n - 1);
    }
  }

  /** Pushing a journey adds one to the total for each of its steps. */
  lemma {:induction false} HeldAfterPut(b: Board, slots: Slots, dates: seq<Day>)
    requires OnBoard(b, slots) && Ascending(b.days) && Ascending(dates)
    requires forall s :: 0 <= s < |dates| ==> dates[s] in b.days
    ensures Held(b, Put(slots, dates), |b.days|) == Held(b, slots, |b.days|) + |dates|
  {
    hide Put, Held;
    if dates == [] {
      PutNothing(slots);
    } else {
      var m := |dates| - 1;
      var first := Put(slots, dates[..m]);
      HeldAfterPut(b, slots, dates[..m]);
      var x :| 0 <= x < |b.days| && b.days[x] == dates[m];
      PutOneMore(slots, dates);
      HeldChanges(b, first, x, first[dates[m]] + [m], |b.days|);
    }
  }

  lemma {:induction false} PutOneMore(slots: Slots, dates: seq<Day>)
    requires dates != [] && Ascending(dates) && dates[|dates| - 1] in slots
    ensures var m := |dates| - 1; var first := Put(slots, dates[..m]);
      Put(slots, dates) == first[dates[m] := first[dates[m]] + [m]]
  {
    var m := |dates| - 1;
    var first := Put(slots, dates[..m]);
    forall d | d in slots
      ensures Put(slots, dates)[d] == if d == dates[m] then first[d] + [m] else first[d]
    {
      StepsAgree(dates, m, m, d);
      assert slots[d] + (StepsOn(dates, m, d) + [m]) == first[d] + [m];
    }
  }

  lemma {:induction false} StepsAgree(dates: seq<Day>, m: nat, n: nat, d: Day)
    requires n <= m <= |dates|
    ensures StepsOn(dates, n, d) == StepsOn(dates[..m], n, d)
  {
    if n > 0 {
      StepsAgree(dates, m, n - 1, d);
    }
  }

  ghost predicate InWindow(b: Board, plan: seq<Start>) {
    forall i :: 0 <= i < |plan| ==> ValidStart(b.days, plan[i])
  }

  lemma {:induction false} HeldAfter(b: Board, flows: Flows, plan: seq<Start>)
    requires Ascending(b.days) && InWindow(b, plan) && |flows| == |plan|
    requires forall i :: 0 <= i < |plan| ==> |plan[i].dates| == |flows[i]|
    ensures Held(b, After(b, plan), |b.days|) == Touches(flows)
  {
    hide Put, ValidStart, Ascending;
    var n := |plan|;
    if n == 0 {
      ClearHoldsNothing(b, |b.days|);
    } else {
      assert plan == plan[..n - 1] + [plan[n - 1]];
      AfterGrows(b, plan[..n - 1], plan[n - 1]);
      HeldAfter(b, flows[..n - 1], plan[..n - 1]);
      ValidStartFacts(b, plan[n - 1]);
      HeldAfterPut(b, After(b, plan[..n - 1]), plan[n - 1].dates);
    }
  }

  lemma {:induction false} ValidStartFacts(b: Board, o: Start)
    requires ValidStart(b.days, o)
    ensures Ascending(o.dates) && o.index < |b.days| && o.dates != [] && o.dates[0] == b.days[o.index]
    ensures forall s :: 0 <= s < |o.dates| ==> o.dates[s] in b.days && b.days[o.index] <= o.dates[s]
  {
  }

  lemma {:induction false} ClearHoldsNothing(b: Board, n: nat)
    requires n <= |b.days|
    ensures Held(b, Clear(b), n) == 0
  {
    if n > 0 {
      ClearHoldsNothing(b, n - 1);
    }
  }

  /** A day serves at most two batches, the first working day at most one. */
  lemma {:induction false} DayHolds(b: Board, plan: seq<Start>, x: nat)
    requires ValidBoard(b) && InWindow(b, plan) && Compatible(plan) && x < |b.days|
    ensures |After(b, plan)[b.days[x]]| <= if x == 0 then 1 else 2
  {
    hide ValidBoard, ValidStart, After, Ascending;
    var d := b.days[x];
    BoardFacts(b);
    forall i | 0 <= i < |plan|
      ensures Ascending(plan[i].dates)
      ensures d in plan[i].dates && x == 0 ==> plan[i].index == 0
    {
      ValidStartFacts(b, plan[i]);
      FirstDayOnly(b.days, plan[i]);
    }
    AfterHolds(b, plan, d);
    TwoOn(plan, d);
    ThreeOn(plan, d);
    forall h, i, j | 0 <= h < i < j < |plan|
      ensures !(d in plan[h].dates && d in plan[i].dates && d in plan[j].dates)
    {
      assert NeverThree(plan[h], plan[i], plan[j]);
    }
  }

  lemma {:induction false} FirstDayOnly(days: seq<Day>, o: Start)
    requires Ascending(days) && ValidStart(days, o)
    ensures days[0] in o.dates ==> o.index == 0
  {
    NotBefore(days, o);
  }

  lemma {:induction false} ThreeOn(plan: seq<Start>, d: Day)
    ensures |On(plan, d)| >= 3 ==> exists h, i, j :: 0 <= h < i < j < |plan| && d in plan[h].dates && d in plan[i].dates && d in plan[j].dates
  {
    OnExact(plan, d);
    var on := On(plan, d);
    if |on| >= 3 {
      assert on[0] in on && on[1] in on && on[2] in on;
    }
  }

  lemma {:induction false} HeldBounded(b: Board, slots: Slots, n: nat)
    requires n <= |b.days| && OnBoard(b, slots)
    requires forall x :: 0 <= x < n ==> |slots[b.days[x]]| <= if x == 0 then 1 else 2
    ensures n > 0 ==> Held(b, slots, n) <= 2 * n - 1
  {
    if n > 1 {
      HeldBounded(b, slots, n - 1);
    } else if n == 1 {
      assert Held(b, slots, 0) == 0;
    }
  }

  /** At most two batches a day, and only the first batch on the first: an arrangement sends at most 2D - 1 steps. */
  lemma {:induction false} TouchesFit(w: Window, flows: Flows, plan: seq<Start>)
    requires ValidFlows(flows) && |flows| >= 1 && |w.Days()| >= 1 && Arrangement(w, flows, plan)
    ensures Touches(flows) <= 2 * |w.Days()| - 1
  {
    hide ValidBoard, ValidStart, Compatible, After, IsStart, StartsOf, ValidFlow, WorkingDays, Ascending;
    var b := BoardOf(w, flows);
    HasStarts(w, flows, plan);
    BoardIsValid(w, flows);
    BoardFacts(b);
    forall i | 0 <= i < |plan|
      ensures ValidStart(b.days, plan[i]) && |plan[i].dates| == |flows[i]|
    {
      StartIsValid(w, flows[i], plan[i]);
    }
    forall x | 0 <= x < |b.days|
      ensures |After(b, plan)[b.days[x]]| <= if x == 0 then 1 else 2
    {
      DayHolds(b, plan, x);
    }
    HeldBounded(b, After(b, plan), |b.days|);
    HeldAfter(b, flows, plan);
  }

  lemma {:induction false} HasStarts(w: Window, flows: Flows, plan: seq<Start>)
    requires ValidFlows(flows) && Arrangement(w, flows, plan)
    ensures forall i :: 0 <= i < |flows| ==> StartsOf(w, flows[i]) != []
  {
    hide Compatible, IsStart, StartsOf, ValidFlow, WorkingDays;
    forall i | 0 <= i < |flows|
      ensures StartsOf(w, flows[i]) != []
    {
      StartsAreOptions(w, flows[i]);
      assert plan[i] in StartsOf(w, flows[i]);
    }
  }

  /** Starts are strictly later in queue order, so the i-th batch cannot start before the i-th working day. */
  lemma {:induction false} StartsSpread(plan: seq<Start>, i: nat)
    requires Compatible(plan) && i < |plan|
    ensures i <= plan[i].index
  {
    hide Apart, NeverThree;
    if i > 0 {
      StartsSpread(plan, i - 1);
    }
  }

  /** An arrangement has at most one batch per working day. */
  lemma {:induction false} BatchesFit(w: Window, flows: Flows, plan: seq<Start>)
    requires ValidFlows(flows) && Arrangement(w, flows, plan)
    ensures |flows| <= |w.Days()|
  {
    hide Compatible, WorkingDays, FinishesBy;
    if |plan| > 0 {
      StartsSpread(plan, |plan| - 1);
      assert IsStart(w, flows[|plan| - 1], plan[|plan| - 1]);
    }
  }

  /** Touchpoints fill the window or leave days empty. */
  lemma {:induction false} SparseLeavesDays(w: Window, flows: Flows, plan: seq<Start>)
    requires ValidFlows(flows) && |flows| >= 1 && |w.Days()| >= 1 && Arrangement(w, flows, plan)
    ensures |w.Days()| <= |QuietDays(w.Days(), plan)| + Touches(flows)
  {
    hide ValidBoard, Compatible, Legal, IsStart, StartsOf, ValidFlow, WorkingDays, QuietDays, Finishes, Quiet;
    var b := BoardOf(w, flows);
    HasStarts(w, flows, plan);
    BoardIsValid(w, flows);
    BoardAllows(w, flows, plan);
    var k := |QuietDays(b.days, plan)|;
    WalkIsLegal(b, k, plan);
    NeedsTouches(b, k, 0, -1, Clear(b), plan);
    ClearQuiet(b);
    SuffixIsTouches(w, flows, 0);
    assert flows[0..] == flows;
  }

  lemma {:induction false} SuffixIsTouches(w: Window, flows: Flows, i: nat)
    requires ValidFlows(flows) && ValidBoard(BoardOf(w, flows)) && i <= |flows|
    requires forall j :: 0 <= j < |flows| ==> |BoardOf(w, flows).options[j][0].dates| == |flows[j]|
    ensures Suffix(BoardOf(w, flows), i) == Touches(flows[i..])
    decreases |flows| - i
  {
    hide ValidBoard, StartsOf, ValidFlow;
    if i < |flows| {
      SuffixIsTouches(w, flows, i + 1);
      assert flows[i..] == [flows[i]] + flows[i + 1..];
      TouchesFront(flows[i], flows[i + 1..]);
    }
  }

  lemma {:induction false} TouchesFront(f: Flow, rest: Flows)
    ensures Touches([f] + rest) == |f| + Touches(rest)
  {
    if rest == [] {
      assert [f] + rest == [f];
      assert [f][..0] == [];
    } else {
      var n := |rest| - 1;
      assert ([f] + rest)[..n + 1] == [f] + rest[..n];
      TouchesFront(f, rest[..n]);
    }
  }
}
