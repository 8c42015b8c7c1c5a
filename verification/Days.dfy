/** Working days and journeys: src/lib/campaign-planner.ts, calendarDays and outreachDates. */
module Days {

  /** A calendar date, as days since 1970-01-01, which was a Thursday. */
  type Day = int

  datatype Option<+T> = None | Some(value: T)

  /** 0 = Sunday ... 6 = Saturday. */
  function Weekday(d: Day): nat {
    (d + 4) % 7
  }

  predicate Working(d: Day) {
    Weekday(d) != 0 && Weekday(d) != 6
  }

  predicate Ascending(s: seq<int>) {
    forall i, j :: 0 <= i < j < |s| ==> s[i] < s[j]
  }

  /** The working days of a window, first to last. */
  function WorkingDays(start: Day, end: Day): seq<Day>
    decreases end - start
  {
    if end < start then []
    else (if Working(start) then [start] else []) + WorkingDays(start + 1, end)
  }

  /** A window's working days are exactly the Mondays to Fridays in it, each once and in order. */
  lemma {:induction false} WorkingDaysExact(start: Day, end: Day)
    ensures forall d :: d in WorkingDays(start, end) <==> start <= d <= end && Working(d)
    ensures Ascending(WorkingDays(start, end))
    decreases end - start
  {
    hide Working;
    if start <= end {
      var rest, all := WorkingDays(start + 1, end), WorkingDays(start, end);
      WorkingDaysExact(start + 1, end);
      forall j | 0 <= j < |rest|
        ensures start < rest[j]
      {
        assert rest[j] in rest;
      }
      if Working(start) {
        assert all == [start] + rest;
      } else {
        assert all == rest;
      }
    }
  }

  method CalendarDays(start: Day, end: Day) returns (days: seq<Day>)
    ensures days == WorkingDays(start, end)
  {
    days := [];
    var d := start;
    while d <= end
      invariant days + WorkingDays(d, end) == WorkingDays(start, end)
      decreases end - d
    {
      if Working(d) {
        days := days + [d];
      }
      d := d + 1;
    }
  }

  /** The steps of an outreach, each as its day counted from the start (day 1 is the start). */
  type Flow = seq<int>

  /** What the draft schema asks of an outreach: at least one step, each later than the one before. */
  predicate ValidFlow(f: Flow) {
    |f| >= 1 && Ascending(f)
  }

  /** Where a step lands `gap` days after the one before it: weekends move to a working day. */
  function NextTouch(previous: Day, gap: int): Day {
    var next := previous + gap;
    if Weekday(next) == 6 then next + (if gap == 1 then 2 else -1)
    else if Weekday(next) == 0 then next + 1
    else next
  }

  /** The date of step `i` of a journey that starts on `start`. */
  function Touch(start: Day, f: Flow, i: nat): Day
    requires i < |f|
  {
    if i == 0 then start else NextTouch(Touch(start, f, i - 1), f[i] - f[i - 1])
  }

  function Journey(start: Day, f: Flow): (dates: seq<Day>)
    ensures |dates| == |f|
  {
    seq(|f|, i requires 0 <= i < |f| => Touch(start, f, i))
  }

  /** outreachDates: null as soon as a step would not be later than the one before. */
  method OutreachDates(start: Day, f: Flow) returns (r: Option<seq<Day>>)
    requires |f| >= 1
    ensures r.Some? <==> forall i :: 1 <= i < |f| ==> Touch(start, f, i - 1) < Touch(start, f, i)
    ensures r.Some? ==> r.value == Journey(start, f)
  {
    hide Weekday, NextTouch;
    var dates := [start];
    var i := 1;
    while i < |f|
      invariant 1 <= i <= |f| == |Journey(start, f)|
      invariant dates == Journey(start, f)[..i]
      invariant forall j :: 1 <= j < i ==> Touch(start, f, j - 1) < Touch(start, f, j)
    {
      assert dates[i - 1] == Touch(start, f, i - 1);
      var next := NextTouch(dates[i - 1], f[i] - f[i - 1]);
      assert next == Touch(start, f, i);
      if next <= dates[i - 1] {
        assert !(Touch(start, f, i - 1) < Touch(start, f, i));
        return None;
      }
      dates := dates + [next];
      i := i + 1;
    }
    return Some(dates);
  }

  /** From a working day a positive gap lands on a later working day, never before a smaller start would. */
  lemma {:induction false} NextTouchMoves(a: Day, b: Day, gap: int)
    requires Working(a) && Working(b) && a <= b && gap >= 1
    ensures Working(NextTouch(a, gap)) && a < NextTouch(a, gap)
    ensures NextTouch(a, gap) <= NextTouch(b, gap)
  {
  }

  function Distance(a: Day, b: Day): nat {
    if a < b then b - a else a - b
  }

  lemma {:induction false} NextTouchIsNearest(previous: Day, gap: int, d: Day)
    requires Working(previous) && gap >= 1 && Working(d) && previous < d
    ensures d == NextTouch(previous, gap) || Distance(NextTouch(previous, gap), previous + gap) < Distance(d, previous + gap)
  {
    var aim := previous + gap;
    assert Weekday(aim) == 6 ==> !Working(aim + 1) && Working(aim - 1) && Working(aim + 2);
    assert Weekday(aim) == 0 ==> !Working(aim - 1) && Working(aim + 1);
  }

  /**
   * Every touch is on the working day nearest to its intended date, of those after the touch before
   * it: no other comes as close.
   */
  lemma {:induction false} TouchIsNearest(start: Day, f: Flow, i: nat, d: Day)
    requires Working(start) && Ascending(f) && 1 <= i < |f| && Working(d) && Touch(start, f, i - 1) < d
    ensures var aim := Touch(start, f, i - 1) + f[i] - f[i - 1];
      d == Touch(start, f, i) || Distance(Touch(start, f, i), aim) < Distance(d, aim)
  {
    hide Working, Weekday, NextTouch, Distance;
    TouchesAdvance(start, f, i - 1);
    NextTouchIsNearest(Touch(start, f, i - 1), f[i] - f[i - 1], d);
  }

  /** From a working-day start every step is a working day, later than the one before. */
  lemma {:induction false} TouchesAdvance(start: Day, f: Flow, i: nat)
    requires Working(start) && Ascending(f) && i < |f|
    ensures Working(Touch(start, f, i))
    ensures forall j :: 0 <= j < i ==> Touch(start, f, j) < Touch(start, f, i)
  {
    if i > 0 {
      TouchesAdvance(start, f, i - 1);
      NextTouchMoves(Touch(start, f, i - 1), Touch(start, f, i - 1), f[i] - f[i - 1]);
    }
  }

  /** A journey from a working day is a strictly increasing run of working days: it is never null. */
  lemma {:induction false} JourneyWellFormed(start: Day, f: Flow)
    requires Working(start) && ValidFlow(f)
    ensures Ascending(Journey(start, f))
    ensures Journey(start, f)[0] == start
    ensures forall d :: d in Journey(start, f) ==> Working(d)
  {
    forall i | 0 <= i < |f|
      ensures Working(Touch(start, f, i))
      ensures forall j :: 0 <= j < i ==> Touch(start, f, j) < Touch(start, f, i)
    {
      TouchesAdvance(start, f, i);
    }
  }

  /** A later start never makes any step earlier. */
  lemma {:induction false} LaterStartNeverEarlier(a: Day, b: Day, f: Flow, i: nat)
    requires Working(a) && Working(b) && a <= b && Ascending(f) && i < |f|
    ensures Touch(a, f, i) <= Touch(b, f, i)
  {
    if i > 0 {
      LaterStartNeverEarlier(a, b, f, i - 1);
      TouchesAdvance(a, f, i - 1);
      TouchesAdvance(b, f, i - 1);
      NextTouchMoves(Touch(a, f, i - 1), Touch(b, f, i - 1), f[i] - f[i - 1]);
    }
  }

  /** A journey started on `start` is over by `end`. */
  predicate FinishesBy(start: Day, f: Flow, end: Day)
    requires |f| >= 1
  {
    Touch(start, f, |f| - 1) <= end
  }
}
