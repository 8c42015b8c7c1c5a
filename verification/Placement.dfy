/** The rules one FO's batches are placed by, stated twice. */
module Placement {
  // As a step-by-step walk over the `slots` table of buildCampaignCalendar
  // (src/lib/campaign-planner.ts), and as conditions on a whole plan.

  import opened Days

  /** One start a batch could take: its position among the working days, and its journey's dates. */
  datatype Start = Start(index: nat, dates: seq<Day>)

  /** The step indexes already sent on each working day, in the order they were pushed. */
  type Slots = map<Day, seq<nat>>

  /** One FO's problem: the window's working days, and the starts open to each batch in queue order. */
  datatype Board = Board(days: seq<Day>, options: seq<seq<Start>>)

  predicate ValidStart(days: seq<Day>, o: Start) {
    && o.index < |days|
    && |o.dates| >= 1
    && o.dates[0] == days[o.index]
    && Ascending(o.dates)
    && forall d :: d in o.dates ==> d in days
  }

  predicate ValidOptions(days: seq<Day>, options: seq<Start>) {
    && |options| >= 1
    && (forall o :: o in options ==> ValidStart(days, o) && |o.dates| == |options[0].dates|)
    && forall x, y :: 0 <= x < y < |options| ==> options[x].index < options[y].index
  }

  predicate ValidBoard(b: Board) {
    && Ascending(b.days)
    && |b.days| >= 1
    && |b.options| >= 1
    && forall i :: 0 <= i < |b.options| ==> ValidOptions(b.days, b.options[i])
  }

  /** What a start of batch `i` may be relied on for. */
  lemma {:induction false} StartFacts(b: Board, i: nat, o: Start)
    requires ValidBoard(b) && i < |b.options| && o in b.options[i]
    ensures ValidStart(b.days, o) && Ascending(o.dates) && |o.dates| == |b.options[i][0].dates|
    ensures o.index < |b.days| && forall s :: 0 <= s < |o.dates| ==> o.dates[s] in b.days
    ensures forall s :: 0 <= s < |o.dates| ==> b.days[o.index] <= o.dates[s]
    ensures o.index <= b.options[i][|b.options[i]| - 1].index
  {
    hide Ascending;
    assert ValidOptions(b.days, b.options[i]);
    var x :| 0 <= x < |b.options[i]| && b.options[i][x] == o;
    DatesFromStart(o.dates);
  }

  lemma {:induction false} DatesFromStart(dates: seq<Day>)
    requires Ascending(dates)
    ensures forall s :: 0 <= s < |dates| ==> dates[0] <= dates[s]
  {
  }

  /** The table has an entry for each working day and for no other day. */
  ghost predicate OnBoard(b: Board, slots: Slots) {
    slots.Keys == Elements(b.days)
  }

  ghost function Elements(s: seq<Day>): set<Day> {
    set d | d in s
  }

  function Clear(b: Board): (slots: Slots)
    ensures OnBoard(b, slots)
  {
    map d | d in b.days :: []
  }

  /** A day holds at most two batches, never two on the same step. */
  predicate Open(slots: Slots, dates: seq<Day>)
    requires forall s :: 0 <= s < |dates| ==> dates[s] in slots
  {
    forall s :: 0 <= s < |dates| ==> |slots[dates[s]]| < 2 && s !in slots[dates[s]]
  }

  /** The steps among the first `n` that land on day `d`. */
  function StepsOn(dates: seq<Day>, n: nat, d: Day): seq<nat>
    requires n <= |dates|
  {
    if n == 0 then [] else StepsOn(dates, n - 1, d) + (if dates[n - 1] == d then [n - 1] else [])
  }

  /** The table once a journey's steps are pushed onto their days. */
  function Put(slots: Slots, dates: seq<Day>): (after: Slots)
    ensures after.Keys == slots.Keys
  {
    map d | d in slots :: slots[d] + StepsOn(dates, |dates|, d)
  }

  lemma {:induction false} StepsOnAscending(dates: seq<Day>, n: nat, d: Day)
    requires n <= |dates| && Ascending(dates)
    ensures d !in dates[..n] ==> StepsOn(dates, n, d) == []
    ensures forall s :: 0 <= s < n && dates[s] == d ==> StepsOn(dates, n, d) == [s]
  {
    if n > 0 {
      StepsOnAscending(dates, n - 1, d);
      assert dates[..n] == dates[..n - 1] + [dates[n - 1]];
    }
  }

  /** A journey adds its step to each of its days and leaves every other day alone. */
  lemma {:induction false} PutAt(slots: Slots, dates: seq<Day>, d: Day)
    requires Ascending(dates) && d in slots
    ensures d !in dates ==> Put(slots, dates)[d] == slots[d]
    ensures forall s :: 0 <= s < |dates| && dates[s] == d ==> Put(slots, dates)[d] == slots[d] + [s]
  {
    StepsOnAscending(dates, |dates|, d);
    assert dates[..|dates|] == dates;
  }

  // ---------------------------------------------------------------- days with nothing to send

  /** The positions, among the first `n` working days, of the days nothing is sent on. */
  function Empty(b: Board, slots: Slots, n: nat): (e: seq<nat>)
    requires n <= |b.days| && OnBoard(b, slots)
    ensures |e| <= n
  {
    if n == 0 then []
    else Empty(b, slots, n - 1) + (if slots[b.days[n - 1]] == [] then [n - 1] else [])
  }

  function Quiet(b: Board, slots: Slots): nat
    requires OnBoard(b, slots)
  {
    |Empty(b, slots, |b.days|)|
  }

  lemma {:induction false} EmptyExact(b: Board, slots: Slots, n: nat)
    requires n <= |b.days| && OnBoard(b, slots)
    ensures var e := Empty(b, slots, n);
      Ascending(e) && forall x :: x in e <==> 0 <= x < n && slots[b.days[x]] == []
  {
    if n > 0 {
      EmptyExact(b, slots, n - 1);
      var before := Empty(b, slots, n - 1);
      assert forall j :: 0 <= j < |before| ==> before[j] in before;
    }
  }

  lemma {:induction false} EmptyPrefixes(b: Board, slots: Slots, n: nat)
    requires n <= |b.days| && OnBoard(b, slots)
    ensures forall m :: 0 <= m <= n ==> Empty(b, slots, m) <= Empty(b, slots, n)
  {
    if n > 0 {
      EmptyPrefixes(b, slots, n - 1);
    }
  }

  /** Pushing more onto the table never empties a day. */
  lemma {:induction false} EmptyShrinks(b: Board, slots: Slots, dates: seq<Day>, n: nat)
    requires n <= |b.days| && OnBoard(b, slots) && Ascending(dates)
    ensures |Empty(b, Put(slots, dates), n)| <= |Empty(b, slots, n)|
    ensures (forall x :: 0 <= x < n ==> b.days[x] !in dates) ==> Empty(b, Put(slots, dates), n) == Empty(b, slots, n)
  {
    if n > 0 {
      EmptyShrinks(b, slots, dates, n - 1);
      PutAt(slots, dates, b.days[n - 1]);
    }
  }

  ghost function EmptySet(b: Board, slots: Slots, n: nat): set<nat>
    requires n <= |b.days| && OnBoard(b, slots)
  {
    set x: nat | x < n && slots[b.days[x]] == []
  }

  lemma {:induction false} EmptySetSize(b: Board, slots: Slots, n: nat)
    requires n <= |b.days| && OnBoard(b, slots)
    ensures |EmptySet(b, slots, n)| == |Empty(b, slots, n)|
  {
    if n == 0 {
      assert EmptySet(b, slots, 0) == {};
    } else {
      EmptySetSize(b, slots, n - 1);
      if slots[b.days[n - 1]] == [] {
        assert EmptySet(b, slots, n) == EmptySet(b, slots, n - 1) + {n - 1};
      } else {
        assert EmptySet(b, slots, n) == EmptySet(b, slots, n - 1);
      }
    }
  }

  /** Nothing placed: every day is empty. */
  lemma {:induction false} ClearQuiet(b: Board)
    ensures Quiet(b, Clear(b)) == |b.days|
  {
    ClearEmpty(b, |b.days|);
  }

  lemma {:induction false} ClearEmpty(b: Board, n: nat)
    requires n <= |b.days|
    ensures |Empty(b, Clear(b), n)| == n
  {
    if n > 0 {
      ClearEmpty(b, n - 1);
    }
  }

  /** Changing what one day holds changes the number of empty days by at most one. */
  lemma {:induction false} OneDayMatters(b: Board, slots: Slots, x: nat, held: seq<nat>, n: nat)
    requires x < |b.days| && n <= |b.days| && OnBoard(b, slots) && Ascending(b.days)
    ensures |Empty(b, slots, n)| <= |Empty(b, slots[b.days[x] := held], n)| + (if x < n then 1 else 0)
  {
    if n > 0 {
      OneDayMatters(b, slots, x, held, n - 1);
    }
  }

  /** Two tables that differ only on the days of `dates` differ in at most that many empty days. */
  lemma {:induction false} FewDaysMatter(b: Board, slots: Slots, other: Slots, dates: seq<Day>)
    requires OnBoard(b, slots) && OnBoard(b, other) && Ascending(b.days)
    requires forall d :: d in slots && d !in dates ==> other[d] == slots[d]
    ensures Quiet(b, slots) <= Quiet(b, other) + |dates|
  {
    if dates == [] {
      assert other == slots;
    } else {
      var n := |dates| - 1;
      var d := dates[n];
      if d in slots {
        var closer := other[d := slots[d]];
        assert closer[d := other[d]] == other;
        FewDaysMatter(b, slots, closer, dates[..n]);
        var x :| 0 <= x < |b.days| && b.days[x] == d;
        OneDayMatters(b, closer, x, other[d], |b.days|);
      } else {
        FewDaysMatter(b, slots, other, dates[..n]);
      }
    }
  }

  /** A journey fills at most as many empty days as it has steps. */
  lemma {:induction false} FillsAtMostItsSteps(b: Board, slots: Slots, dates: seq<Day>)
    requires OnBoard(b, slots) && Ascending(b.days) && Ascending(dates)
    ensures Quiet(b, slots) <= Quiet(b, Put(slots, dates)) + |dates|
  {
    forall d | d in slots && d !in dates
      ensures Put(slots, dates)[d] == slots[d]
    {
      PutAt(slots, dates, d);
    }
    FewDaysMatter(b, slots, Put(slots, dates), dates);
  }

  // ---------------------------------------------------------------- the walk

  /**
   * `plan` places batches i, i + 1, ... one after the other, each after `after` and on open days,
   * and leaves at most `k` days empty. This is the search with no pruning and no memory.
   */
  ghost predicate Finishes(b: Board, k: nat, i: nat, after: int, slots: Slots, plan: seq<Start>)
    requires ValidBoard(b) && OnBoard(b, slots)
    decreases |plan|
  {
    if plan == [] then i == |b.options| && Quiet(b, slots) <= k
    else
      && i < |b.options|
      && plan[0] in b.options[i]
      && after < plan[0].index
      && Open(slots, plan[0].dates)
      && Finishes(b, k, i + 1, plan[0].index, Put(slots, plan[0].dates), plan[1..])
  }

  ghost predicate CanFinish(b: Board, k: nat, i: nat, after: int, slots: Slots)
    requires ValidBoard(b) && OnBoard(b, slots)
  {
    exists plan :: Finishes(b, k, i, after, slots, plan)
  }

  /** Touchpoints still to place from batch `i` on: `suffix[i]`. */
  function Suffix(b: Board, i: nat): nat
    requires ValidBoard(b) && i <= |b.options|
    decreases |b.options| - i
  {
    if i == |b.options| then 0 else |b.options[i][0].dates| + Suffix(b, i + 1)
  }

  /** The `suffix` prune: every empty day beyond `k` needs a touchpoint of its own. */
  lemma {:induction false} NeedsTouches(b: Board, k: nat, i: nat, after: int, slots: Slots, plan: seq<Start>)
    requires ValidBoard(b) && OnBoard(b, slots) && Finishes(b, k, i, after, slots, plan)
    ensures i <= |b.options| && Quiet(b, slots) <= k + Suffix(b, i)
    decreases |plan|
  {
    hide ValidBoard, ValidStart, Ascending, Open;
    if plan != [] {
      StartFacts(b, i, plan[0]);
      BoardFacts(b);
      NeedsTouches(b, k, i + 1, plan[0].index, Put(slots, plan[0].dates), plan[1..]);
      FillsAtMostItsSteps(b, slots, plan[0].dates);
    }
  }

  /** The first-empty-days prune: days up to the last start can no longer be filled. */
  lemma {:induction false} LeavesBehind(b: Board, k: nat, i: nat, after: int, slots: Slots, plan: seq<Start>)
    requires ValidBoard(b) && OnBoard(b, slots) && -1 <= after < |b.days|
    requires Finishes(b, k, i, after, slots, plan)
    ensures |Empty(b, slots, after + 1)| <= k
    decreases |plan|
  {
    hide ValidBoard, ValidStart, Ascending, Open, Put;
    if plan == [] {
      EmptyPrefixes(b, slots, |b.days|);
      assert Empty(b, slots, after + 1) <= Empty(b, slots, |b.days|);
    } else {
      var o := plan[0];
      StartFacts(b, i, o);
      LeavesBehind(b, k, i + 1, o.index, Put(slots, o.dates), plan[1..]);
      StaysEmpty(b, slots, o, after + 1);
    }
  }

  /** What is empty before a journey's start is still empty once it is placed. */
  lemma {:induction false} StaysEmpty(b: Board, slots: Slots, o: Start, m: nat)
    requires ValidBoard(b) && ValidStart(b.days, o) && OnBoard(b, slots) && m <= o.index
    ensures |Empty(b, slots, m)| <= |Empty(b, Put(slots, o.dates), o.index + 1)|
  {
    hide Ascending;
    NotBefore(b.days, o);
    EmptyShrinks(b, slots, o.dates, m);
    EmptyPrefixes(b, Put(slots, o.dates), o.index + 1);
    assert Empty(b, Put(slots, o.dates), m) <= Empty(b, Put(slots, o.dates), o.index + 1);
  }

  /** A journey touches no working day before its start. */
  lemma {:induction false} NotBefore(days: seq<Day>, o: Start)
    requires Ascending(days) && ValidStart(days, o)
    ensures forall x :: 0 <= x < o.index ==> days[x] !in o.dates
  {
    DatesFromStart(o.dates);
  }

  lemma {:induction false} BoardFacts(b: Board)
    requires ValidBoard(b)
    ensures Ascending(b.days) && |b.days| >= 1 && |b.options| >= 1
  {
  }

  /** The latest start of batch `i` that still leaves a later start for every batch after it: `latest[i]`. */
  function Latest(b: Board, i: nat): int
    requires ValidBoard(b) && i < |b.options|
    decreases |b.options| - i
  {
    var last := b.options[i][|b.options[i]| - 1].index;
    if i == |b.options| - 1 then last
    else if Latest(b, i + 1) - 1 < last then Latest(b, i + 1) - 1 else last
  }

  /** The `latest` prune: no arrangement starts batch `i` later than `latest[i]`. */
  lemma {:induction false} StartsInTime(b: Board, k: nat, i: nat, after: int, slots: Slots, plan: seq<Start>)
    requires ValidBoard(b) && OnBoard(b, slots) && plan != [] && Finishes(b, k, i, after, slots, plan)
    ensures i < |b.options| && after < plan[0].index <= Latest(b, i)
    decreases |plan|
  {
    hide ValidBoard, ValidStart, Ascending, Open, Put, Quiet;
    StartFacts(b, i, plan[0]);
    if |plan| > 1 {
      StartsInTime(b, k, i + 1, plan[0].index, Put(slots, plan[0].dates), plan[1..]);
    }
  }

  // ---------------------------------------------------------------- whole plans

  /** The table that holds exactly the touches of these journeys; a batch with no dates adds none. */
  function Table(b: Board, dates: seq<seq<Day>>): (slots: Slots)
    ensures OnBoard(b, slots)
  {
    if dates == [] then Clear(b) else Put(Table(b, dates[..|dates| - 1]), dates[|dates| - 1])
  }

  function DatesOf(plan: seq<Start>): (dates: seq<seq<Day>>)
    ensures |dates| == |plan|
  {
    seq(|plan|, i requires 0 <= i < |plan| => plan[i].dates)
  }

  /** The table after every batch of `plan`. */
  function After(b: Board, plan: seq<Start>): (slots: Slots)
    ensures OnBoard(b, slots)
  {
    Table(b, DatesOf(plan))
  }

  lemma {:induction false} AfterGrows(b: Board, placed: seq<Start>, o: Start)
    ensures After(b, placed + [o]) == Put(After(b, placed), o.dates)
  {
    assert DatesOf(placed + [o])[..|placed|] == DatesOf(placed);
  }

  predicate Sends(o: Start, step: nat, d: Day) {
    step < |o.dates| && o.dates[step] == d
  }

  /** Two batches never send the same step on one day. */
  predicate Apart(x: Start, y: Start) {
    forall s :: 0 <= s < |x.dates| && s < |y.dates| ==> x.dates[s] != y.dates[s]
  }

  /** No day serves all three batches. */
  predicate NeverThree(x: Start, y: Start, z: Start) {
    forall d :: d in x.dates && d in y.dates ==> d !in z.dates
  }

  /** Starts strictly later in queue order, at most two batches a day and never two on one step. */
  ghost predicate Compatible(placed: seq<Start>) {
    && (forall i, j :: 0 <= i < j < |placed| ==> placed[i].index < placed[j].index)
    && (forall i, j :: 0 <= i < j < |placed| ==> Apart(placed[i], placed[j]))
    && (forall h, i, j :: 0 <= h < i < j < |placed| ==> NeverThree(placed[h], placed[i], placed[j]))
  }

  /** Every batch placed so far takes one of its own starts. */
  ghost predicate FromOptions(b: Board, placed: seq<Start>) {
    |placed| <= |b.options| && forall i :: 0 <= i < |placed| ==> placed[i] in b.options[i]
  }

  /**
   * The placement rules of a whole plan at once: one start per batch, and all of them compatible.
   * That a journey ends inside the window is part of being among a batch's starts.
   */
  ghost predicate Legal(b: Board, plan: seq<Start>) {
    |plan| == |b.options| && FromOptions(b, plan) && Compatible(plan)
  }

  /** The working days, by position, a plan sends nothing on. */
  ghost function QuietDays(days: seq<Day>, plan: seq<Start>): set<nat> {
    set x: nat | x < |days| && forall i :: 0 <= i < |plan| ==> days[x] !in plan[i].dates
  }

  ghost predicate Journeys(plan: seq<Start>) {
    forall i :: 0 <= i < |plan| ==> Ascending(plan[i].dates)
  }

  /** The batches that send something on a day, in queue order. */
  function On(plan: seq<Start>, d: Day): seq<nat> {
    if plan == [] then []
    else On(plan[..|plan| - 1], d) + (if d in plan[|plan| - 1].dates then [|plan| - 1] else [])
  }

  lemma {:induction false} OnExact(plan: seq<Start>, d: Day)
    ensures forall x :: x in On(plan, d) <==> 0 <= x < |plan| && d in plan[x].dates
    ensures Ascending(On(plan, d))
  {
    if plan != [] {
      var n := |plan| - 1;
      OnExact(plan[..n], d);
      var before := On(plan[..n], d);
      assert forall j :: 0 <= j < |before| ==> before[j] in before;
      assert forall x :: 0 <= x < n ==> plan[..n][x] == plan[x];
    }
  }

  /** What a day of the table holds: one step for each batch that sends on it. */
  lemma {:induction false} AfterHolds(b: Board, plan: seq<Start>, d: Day)
    requires ValidBoard(b) && d in b.days && Journeys(plan)
    ensures forall s :: s in After(b, plan)[d] <==> exists i :: 0 <= i < |plan| && Sends(plan[i], s, d)
    ensures |After(b, plan)[d]| == |On(plan, d)|
  {
    hide ValidBoard, Ascending, Put;
    if plan != [] {
      var n := |plan| - 1;
      var init, o := plan[..n], plan[n];
      AfterHolds(b, init, d);
      AfterGrows(b, init, o);
      assert plan == init + [o];
      PutAt(After(b, init), o.dates, d);
      assert forall i :: 0 <= i < n ==> init[i] == plan[i];
      var held, before := After(b, plan)[d], After(b, init)[d];
      forall s
        ensures s in held <==> exists i :: 0 <= i < |plan| && Sends(plan[i], s, d)
      {
        if i :| 0 <= i < |plan| && Sends(plan[i], s, d) {
          assert i < n ==> Sends(init[i], s, d);
        }
        assert s in before ==> exists i :: 0 <= i < n && Sends(init[i], s, d) && Sends(plan[i], s, d);
        assert s in held && s !in before ==> Sends(plan[n], s, d);
      }
    }
  }

  /** The check on the table is the pair and triple rules against the batches already placed. */
  lemma {:induction false} OpenMeans(b: Board, plan: seq<Start>, o: Start)
    requires ValidBoard(b) && Journeys(plan)
    requires forall s :: 0 <= s < |o.dates| ==> o.dates[s] in b.days
    ensures Open(After(b, plan), o.dates) <==>
      && (forall i :: 0 <= i < |plan| ==> Apart(plan[i], o))
      && (forall i, j :: 0 <= i < j < |plan| ==> NeverThree(plan[i], plan[j], o))
  {
    hide ValidBoard, Ascending;
    var slots := After(b, plan);
    forall s | 0 <= s < |o.dates|
      ensures s in slots[o.dates[s]] <==> exists i :: 0 <= i < |plan| && Sends(plan[i], s, o.dates[s])
      ensures |slots[o.dates[s]]| >= 2 <==> exists i, j :: 0 <= i < j < |plan| && o.dates[s] in plan[i].dates && o.dates[s] in plan[j].dates
    {
      AfterHolds(b, plan, o.dates[s]);
      TwoOn(plan, o.dates[s]);
    }
    if Open(slots, o.dates) {
      forall i, s | 0 <= i < |plan| && 0 <= s < |plan[i].dates| && s < |o.dates|
        ensures plan[i].dates[s] != o.dates[s]
      {
        assert !Sends(plan[i], s, o.dates[s]);
      }
    }
  }

  lemma {:induction false} TwoOn(plan: seq<Start>, d: Day)
    ensures |On(plan, d)| >= 2 <==> exists i, j :: 0 <= i < j < |plan| && d in plan[i].dates && d in plan[j].dates
  {
    OnExact(plan, d);
    var on := On(plan, d);
    if |on| >= 2 {
      assert on[0] in on && on[1] in on;
    }
    if i, j :| 0 <= i < j < |plan| && d in plan[i].dates && d in plan[j].dates {
      assert i in on && j in on;
    }
  }

  lemma {:induction false} QuietAfter(b: Board, plan: seq<Start>)
    requires ValidBoard(b) && Journeys(plan)
    ensures Quiet(b, After(b, plan)) == |QuietDays(b.days, plan)|
  {
    hide ValidBoard, Ascending;
    EmptySetSize(b, After(b, plan), |b.days|);
    forall x: nat | x < |b.days|
      ensures x in EmptySet(b, After(b, plan), |b.days|) <==> x in QuietDays(b.days, plan)
    {
      AfterHolds(b, plan, b.days[x]);
      OnExact(plan, b.days[x]);
      assert On(plan, b.days[x]) != [] ==> On(plan, b.days[x])[0] in On(plan, b.days[x]);
    }
    assert EmptySet(b, After(b, plan), |b.days|) == QuietDays(b.days, plan);
  }

  /** Adding one more batch to a compatible run is the check on its last start and on the table. */
  lemma {:induction false} CompatibleGrows(b: Board, placed: seq<Start>, o: Start)
    requires ValidBoard(b) && Journeys(placed)
    requires forall s :: 0 <= s < |o.dates| ==> o.dates[s] in b.days
    ensures Compatible(placed + [o]) <==>
      Compatible(placed) && LastIndex(placed) < o.index && Open(After(b, placed), o.dates)
  {
    hide ValidBoard, Ascending, Open, Apart, NeverThree, After, Journeys;
    var n, grown := |placed|, placed + [o];
    OpenMeans(b, placed, o);
    assert forall i :: 0 <= i < n ==> grown[i] == placed[i];
    assert grown[n] == o;
    assert grown[..n] == placed;
    if Compatible(grown) {
      CompatiblePrefix(grown, n);
      forall i | 0 <= i < n
        ensures Apart(placed[i], o) && placed[i].index < o.index
      {
        assert Apart(grown[i], grown[n]);
      }
      forall i, j | 0 <= i < j < n
        ensures NeverThree(placed[i], placed[j], o)
      {
        assert NeverThree(grown[i], grown[j], grown[n]);
      }
    }
  }

  function LastIndex(placed: seq<Start>): int {
    if placed == [] then -1 else placed[|placed| - 1].index
  }

  lemma {:induction false} CompatiblePrefix(plan: seq<Start>, m: nat)
    requires Compatible(plan) && m <= |plan|
    ensures Compatible(plan[..m])
  {
    hide Apart, NeverThree;
    assert forall i :: 0 <= i < m ==> plan[..m][i] == plan[i];
  }

  /** From a compatible prefix, the walk finishes exactly when the whole plan keeps the rules. */
  lemma {:induction false} WalkExtends(b: Board, k: nat, placed: seq<Start>, rest: seq<Start>)
    requires ValidBoard(b) && FromOptions(b, placed) && Compatible(placed)
    ensures Finishes(b, k, |placed|, LastIndex(placed), After(b, placed), rest) <==>
      Legal(b, placed + rest) && Quiet(b, After(b, placed + rest)) <= k
    decreases |rest|
  {
    hide ValidBoard, Ascending, Open, Compatible;
    var whole := placed + rest;
    OptionsAreJourneys(b, placed);
    if rest == [] {
      assert whole == placed;
    } else {
      var o := rest[0];
      var grown := placed + [o];
      assert grown + rest[1..] == whole;
      assert whole[..|grown|] == grown && whole[|placed|] == o;
      assert grown[..|placed|] == placed;
      if |placed| < |b.options| && o in b.options[|placed|] {
        StartFacts(b, |placed|, o);
        CompatibleGrows(b, placed, o);
        AfterGrows(b, placed, o);
        if Compatible(grown) {
          WalkExtends(b, k, grown, rest[1..]);
        } else {
          CompatibleStarts(whole, |grown|);
        }
      }
    }
  }

  lemma {:induction false} CompatibleStarts(plan: seq<Start>, m: nat)
    requires m <= |plan|
    ensures Compatible(plan) ==> Compatible(plan[..m])
  {
    hide Compatible;
    if Compatible(plan) {
      CompatiblePrefix(plan, m);
    }
  }

  lemma {:induction false} OptionsAreJourneys(b: Board, placed: seq<Start>)
    requires ValidBoard(b) && FromOptions(b, placed)
    ensures Journeys(placed)
  {
    hide ValidBoard, ValidStart, Ascending;
    forall i | 0 <= i < |placed|
      ensures Ascending(placed[i].dates)
    {
      StartFacts(b, i, placed[i]);
    }
  }

  /** The step-by-step walk and the whole-plan rules accept the same plans. */
  lemma {:induction false} WalkIsLegal(b: Board, k: nat, plan: seq<Start>)
    requires ValidBoard(b)
    ensures Finishes(b, k, 0, -1, Clear(b), plan) <==> Legal(b, plan) && |QuietDays(b.days, plan)| <= k
  {
    hide ValidBoard, Open;
    WalkExtends(b, k, [], plan);
    assert [] + plan == plan;
    if Legal(b, plan) {
      OptionsAreJourneys(b, plan);
      QuietAfter(b, plan);
    }
  }

  /** An arrangement with at most `k` empty days exists exactly when the walk can finish. */
  lemma {:induction false} ArrangementExists(b: Board, k: nat)
    requires ValidBoard(b)
    ensures CanFinish(b, k, 0, -1, Clear(b)) <==> exists plan :: Legal(b, plan) && |QuietDays(b.days, plan)| <= k
  {
    forall plan
      ensures Finishes(b, k, 0, -1, Clear(b), plan) <==> Legal(b, plan) && |QuietDays(b.days, plan)| <= k
    {
      WalkIsLegal(b, k, plan);
    }
  }
}
