/**
 * The start days open to an outreach: the options of buildCampaignCalendar
 * (src/lib/campaign-planner.ts) and Window.startsFor (src/lib/campaign-fit.ts).
 */
module Starts {
  import opened Days
  import opened Placement

  /** A campaign's dates. */
  datatype Window = Window(start: Day, end: Day) {
    function Days(): seq<Day> {
      WorkingDays(start, end)
    }
  }

  /** `o` starts outreach `f` on a working day of the window and ends inside it. */
  predicate IsStart(w: Window, f: Flow, o: Start)
    requires ValidFlow(f)
  {
    o.index < |w.Days()| && o.dates == Journey(w.Days()[o.index], f) && FinishesBy(w.Days()[o.index], f, w.end)
  }

  /** The starts among the first `n` working days. */
  function StartsIn(w: Window, f: Flow, n: nat): seq<Start>
    requires ValidFlow(f) && n <= |w.Days()|
  {
    if n == 0 then []
    else
      var day := w.Days()[n - 1];
      StartsIn(w, f, n - 1) + (if FinishesBy(day, f, w.end) then [Start(n - 1, Journey(day, f))] else [])
  }

  function StartsOf(w: Window, f: Flow): seq<Start>
    requires ValidFlow(f)
  {
    StartsIn(w, f, |w.Days()|)
  }

  lemma {:induction false} StartsExact(w: Window, f: Flow, n: nat)
    requires ValidFlow(f) && n <= |w.Days()|
    ensures forall o :: o in StartsIn(w, f, n) <==> o.index < n && IsStart(w, f, o)
    ensures forall x, y :: 0 <= x < y < |StartsIn(w, f, n)| ==> StartsIn(w, f, n)[x].index < StartsIn(w, f, n)[y].index
  {
    hide ValidFlow, FinishesBy, Journey, WorkingDays;
    if n > 0 {
      StartsExact(w, f, n - 1);
      var before := StartsIn(w, f, n - 1);
      assert forall j :: 0 <= j < |before| ==> before[j] in before;
    }
  }

  /** A journey that ends inside the window only touches working days of the window. */
  lemma {:induction false} StartIsValid(w: Window, f: Flow, o: Start)
    requires ValidFlow(f) && IsStart(w, f, o)
    ensures ValidStart(w.Days(), o) && |o.dates| == |f|
  {
    hide WorkingDays, Touch, Working;
    var start := w.Days()[o.index];
    WorkingDaysExact(w.start, w.end);
    assert start in w.Days();
    JourneyWellFormed(start, f);
    forall d | d in o.dates
      ensures d in w.Days()
    {
      var s :| 0 <= s < |o.dates| && o.dates[s] == d;
      assert start <= d <= o.dates[|f| - 1];
    }
  }

  /** An outreach's starts, where there are any, make one batch's column of a board. */
  lemma {:induction false} StartsAreOptions(w: Window, f: Flow)
    requires ValidFlow(f)
    ensures StartsOf(w, f) != [] ==> ValidOptions(w.Days(), StartsOf(w, f))
    ensures forall o :: o in StartsOf(w, f) <==> IsStart(w, f, o)
    ensures forall o :: o in StartsOf(w, f) ==> |o.dates| == |f|
  {
    hide ValidFlow, ValidStart, IsStart, StartsIn;
    StartsExact(w, f, |w.Days()|);
    forall o | o in StartsOf(w, f)
      ensures ValidStart(w.Days(), o) && |o.dates| == |f|
    {
      StartIsValid(w, f, o);
    }
    forall o
      ensures IsStart(w, f, o) ==> o.index < |w.Days()|
    {
      IndexInside(w, f, o);
    }
  }

  lemma {:induction false} IndexInside(w: Window, f: Flow, o: Start)
    requires ValidFlow(f)
    ensures IsStart(w, f, o) ==> o.index < |w.Days()|
  {
  }

  // ---------------------------------------------------------------- the start-day count

  /** Whether the outreach still finishes when it starts on the i-th working day. */
  predicate Fits(w: Window, f: Flow, i: nat)
    requires ValidFlow(f) && i < |w.Days()|
  {
    FinishesBy(w.Days()[i], f, w.end)
  }

  /** Starting later never finishes earlier. */
  lemma {:induction false} FitsIsDownward(w: Window, f: Flow, i: nat, j: nat)
    requires ValidFlow(f) && i <= j < |w.Days()| && Fits(w, f, j)
    ensures Fits(w, f, i)
  {
    hide WorkingDays, Touch, Working;
    WorkingDaysExact(w.start, w.end);
    assert w.Days()[i] in w.Days() && w.Days()[j] in w.Days();
    LaterStartNeverEarlier(w.Days()[i], w.Days()[j], f, |f| - 1);
  }

  /** Window.startsFor: by binary search, the working days from which the outreach finishes are the first n. */
  method StartsFor(w: Window, f: Flow) returns (n: nat)
    requires ValidFlow(f)
    ensures n <= |w.Days()|
    ensures forall i :: 0 <= i < |w.Days()| ==> (Fits(w, f, i) <==> i < n)
    ensures n == StartCount(w, f)
  {
    hide Fits, WorkingDays;
    var lo: nat, hi: nat := 0, |w.Days()|;
    while lo < hi
      invariant lo <= hi <= |w.Days()|
      invariant forall i :: 0 <= i < lo ==> Fits(w, f, i)
      invariant forall i :: hi <= i < |w.Days()| ==> !Fits(w, f, i)
    {
      var mid := (lo + hi) / 2;
      if Fits(w, f, mid) {
        forall i | 0 <= i <= mid
          ensures Fits(w, f, i)
        {
          FitsIsDownward(w, f, i, mid);
        }
        lo := mid + 1;
      } else {
        forall i | mid <= i < |w.Days()|
          ensures !Fits(w, f, i)
        {
          if Fits(w, f, i) {
            FitsIsDownward(w, f, mid, i);
          }
        }
        hi := mid;
      }
    }
    n := lo;
    CountIsPrefix(w, f, n, |w.Days()|);
  }

  /** How many starts an outreach has. */
  function StartCount(w: Window, f: Flow): nat
    requires ValidFlow(f)
  {
    |StartsOf(w, f)|
  }

  lemma {:induction false} CountIsPrefix(w: Window, f: Flow, n: nat, m: nat)
    requires ValidFlow(f) && m <= |w.Days()|
    requires forall i :: 0 <= i < m ==> (Fits(w, f, i) <==> i < n)
    ensures |StartsIn(w, f, m)| == if m < n then m else n
  {
    hide FinishesBy, WorkingDays;
    if m > 0 {
      CountIsPrefix(w, f, n, m - 1);
      assert Fits(w, f, m - 1) <==> m - 1 < n;
    }
  }

  /** The starts are the first StartCount working days, in order. */
  lemma {:induction false} StartsArePrefix(w: Window, f: Flow, x: nat)
    requires ValidFlow(f)
    ensures StartCount(w, f) <= |w.Days()|
    ensures x < StartCount(w, f) ==> StartsOf(w, f)[x] == Start(x, Journey(w.Days()[x], f))
  {
    hide FinishesBy, WorkingDays, ValidFlow;
    StartsStack(w, f, |w.Days()|);
  }

  lemma {:induction false} StartsStack(w: Window, f: Flow, m: nat)
    requires ValidFlow(f) && m <= |w.Days()|
    ensures |StartsIn(w, f, m)| <= m
    ensures m > 0 && Fits(w, f, m - 1) ==> |StartsIn(w, f, m)| == m
    ensures forall x :: 0 <= x < |StartsIn(w, f, m)| ==> StartsIn(w, f, m)[x] == Start(x, Journey(w.Days()[x], f))
  {
    hide FinishesBy, WorkingDays, ValidFlow;
    if m > 0 {
      StartsStack(w, f, m - 1);
      if m > 1 && Fits(w, f, m - 1) {
        FitsIsDownward(w, f, m - 2, m - 1);
      }
    }
  }

  // ---------------------------------------------------------------- starts one by one

  lemma {:induction false} OneMoreStart(w: Window, f: Flow, n: nat)
    requires ValidFlow(f) && n < |w.Days()|
    ensures StartsIn(w, f, 0) == []
    ensures var day := w.Days()[n];
      StartsIn(w, f, n + 1) == StartsIn(w, f, n) + (if FinishesBy(day, f, w.end) then [Start(n, Journey(day, f))] else [])
  {
    hide FinishesBy, Journey, WorkingDays, ValidFlow;
  }

  /** A journey of two steps, and one of three, from its gaps. */
  lemma {:induction false} TwoTouches(f: Flow, start: Day, second: Day, end: Day)
    requires |f| == 2 && second == NextTouch(start, f[1] - f[0])
    ensures Journey(start, f) == [start, second] && (FinishesBy(start, f, end) <==> second <= end)
  {
    hide NextTouch;
    assert Touch(start, f, 0) == start && Touch(start, f, 1) == second;
  }

  lemma {:induction false} ThreeTouches(f: Flow, start: Day, second: Day, third: Day, end: Day)
    requires |f| == 3 && second == NextTouch(start, f[1] - f[0]) && third == NextTouch(second, f[2] - f[1])
    ensures Journey(start, f) == [start, second, third] && (FinishesBy(start, f, end) <==> third <= end)
  {
    hide NextTouch;
    assert Touch(start, f, 0) == start && Touch(start, f, 1) == second && Touch(start, f, 2) == third;
  }
}
