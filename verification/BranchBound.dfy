/**
 * Choosing an outreach without evaluating every one: the loops behind `alone` and `star` in
 * fitCampaign, src/lib/campaign-fit.ts.
 */
module BranchBound {
  import opened Days
  import opened Sorting

  /** What one outreach gives one FO: the pace, how far above the request it is, and the days left empty. */
  datatype Eval = Eval(pace: nat, excess: real, quiet: nat)

  /**
   * The outreaches weighed for one FO: each one's quality `q`, the least excess it could need
   * (None when it can never do), and what it really gives.
   */
  datatype Table = Table(days: nat, q: seq<real>, floor: seq<Option<real>>, one: seq<Option<Eval>>)

  /** What a window of days with nothing to send costs an outreach. */
  const QUIET_WEIGHT: real := 3.0

  function Score(t: Table, i: nat, quiet: real): real
    requires t.days >= 1 && i < |t.q|
  {
    t.q[i] + QUIET_WEIGHT * quiet / (t.days as real)
  }

  /** A full window scores its quality; every empty day adds the same, and a window of nothing but those adds 3. */
  lemma {:induction false} ScoreIsLinear(t: Table, i: nat, a: real, b: real)
    requires t.days >= 1 && i < |t.q|
    ensures Score(t, i, 0.0) == t.q[i] && Score(t, i, t.days as real) == t.q[i] + 3.0
    ensures Score(t, i, a + b) - t.q[i] == (Score(t, i, a) - t.q[i]) + (Score(t, i, b) - t.q[i])
  {
    var d := t.days as real;
    assert QUIET_WEIGHT * (a + b) / d == QUIET_WEIGHT * a / d + QUIET_WEIGHT * b / d by {
      assert QUIET_WEIGHT * (a + b) == QUIET_WEIGHT * a + QUIET_WEIGHT * b;
    }
  }

  /** The floors are real bounds: an outreach without one gives nothing, and no outreach beats its own. */
  ghost predicate ValidTable(t: Table) {
    && t.days >= 1
    && |t.floor| == |t.one| == |t.q|
    && forall i :: 0 <= i < |t.q| ==>
         && (t.floor[i].Some? ==> t.floor[i].value >= 0.0)
         && (t.one[i].Some? ==> t.floor[i].Some? && t.floor[i].value <= t.one[i].value.excess)
  }

  datatype Best = Best(i: nat, excess: real, quiet: nat, score: real)

  /** `a` is no better than `b`: more excess, or as much and no better a score. */
  predicate NoBetter(a: Eval, aScore: real, b: Best) {
    b.excess < a.excess || (b.excess == a.excess && b.score <= aScore)
  }

  predicate IsBest(t: Table, i: nat, b: Best)
    requires t.days >= 1 && |t.one| == |t.q|
  {
    b.i == i && i < |t.q| && t.one[i].Some? && b.excess == t.one[i].value.excess &&
    b.quiet == t.one[i].value.quiet && b.score == Score(t, i, b.quiet as real)
  }

  /** The order the loops visit outreaches in: least possible excess first, best quality among those. */
  predicate Sooner(floor: seq<Option<real>>, q: seq<real>, i: nat, j: nat)
    requires i < |floor| == |q| && j < |floor|
  {
    match (floor[i], floor[j])
    case (None, None) => q[i] <= q[j]
    case (None, Some(_)) => false
    case (Some(_), None) => true
    case (Some(a), Some(b)) => a < b || (a == b && q[i] <= q[j])
  }

  ghost predicate Visits(floor: seq<Option<real>>, q: seq<real>, order: seq<nat>)
    requires |floor| == |q|
  {
    && (forall i :: 0 <= i < |q| ==> i in order)
    && (forall k :: 0 <= k < |order| ==> order[k] < |q|)
    && forall k, l :: 0 <= k < l < |order| ==> Sooner(floor, q, order[k], order[l])
  }

  /** The comparison of two outreaches by index; indexes past the table come last. */
  function ByFloor(floor: seq<Option<real>>, q: seq<real>): (nat, nat) -> bool
    requires |floor| == |q|
  {
    (i: nat, j: nat) => if i < |floor| && j < |floor| then Sooner(floor, q, i, j) else j >= |floor|
  }

  function Indexes(n: nat): (r: seq<nat>)
    ensures |r| == n && forall i :: 0 <= i < n ==> r[i] == i
  {
    seq(n, (i: nat) => i)
  }

  function SortedIndexes(floor: seq<Option<real>>, q: seq<real>): seq<nat>
    requires |floor| == |q|
  {
    Sort<nat>(ByFloor(floor, q), Indexes(|q|))
  }

  lemma {:induction false} SortedIndexesVisit(floor: seq<Option<real>>, q: seq<real>)
    requires |floor| == |q|
    ensures Visits(floor, q, SortedIndexes(floor, q))
  {
    hide Sort;
    var indexes := Indexes(|q|);
    var order := SortedIndexes(floor, q);
    SortKeeps<nat>(ByFloor(floor, q), indexes);
    SortSorts<nat>(ByFloor(floor, q), indexes);
    forall i: nat
      ensures i in order <==> i < |q|
    {
      assert i in multiset(order) <==> i in multiset(indexes);
      assert i < |q| ==> indexes[i] == i;
    }
    forall k | 0 <= k < |order|
      ensures order[k] < |q|
    {
      assert order[k] in order;
    }
  }

  lemma {:induction false} ScoreAtLeastQ(t: Table, i: nat, quiet: real)
    requires t.days >= 1 && i < |t.q| && quiet >= 0.0
    ensures Score(t, i, quiet) >= t.q[i]
  {
    assert QUIET_WEIGHT * quiet >= 0.0;
    DivNonNegative(QUIET_WEIGHT * quiet, t.days as real);
  }

  lemma {:induction false} DivNonNegative(x: real, y: real)
    requires x >= 0.0 && y > 0.0
    ensures x / y >= 0.0
  {
  }

  /** Nothing visited so far beats `best`. */
  ghost predicate BestOf(t: Table, seen: seq<nat>, best: Option<Best>)
    requires ValidTable(t) && forall k :: 0 <= k < |seen| ==> seen[k] < |t.q|
  {
    && (best.Some? ==> IsBest(t, best.value.i, best.value))
    && forall k :: 0 <= k < |seen| && t.one[seen[k]].Some? ==>
         best.Some? && NoBetter(t.one[seen[k]].value, Score(t, seen[k], t.one[seen[k]].value.quiet as real), best.value)
  }

  /**
   * alone: stop at an outreach that can never do, at one whose least excess is already worse than
   * the best, or, once no excess is needed, at one whose quality alone is no better than the best
   * score. `spent` is the search budget; `cut` tells whether it ended the loop. Unless it did, the
   * result is the least excess any outreach gives and the best score at it, over all outreaches.
   */
  method Alone(t: Table, spent: nat -> bool) returns (best: Option<Best>, cut: bool)
    requires ValidTable(t)
    ensures best.Some? ==> IsBest(t, best.value.i, best.value)
    ensures !cut ==> forall i :: 0 <= i < |t.q| && t.one[i].Some? ==>
      best.Some? && NoBetter(t.one[i].value, Score(t, i, t.one[i].value.quiet as real), best.value)
    ensures cut ==> best.Some?
  {
    hide Score, SortedIndexes;
    var order := SortedIndexes(t.floor, t.q);
    SortedIndexesVisit(t.floor, t.q);
    best, cut := None, false;
    var n := 0;
    while n < |order|
      invariant 0 <= n <= |order| && !cut
      invariant BestOf(t, order[..n], best)
    {
      var i := order[n];
      if t.floor[i].None? {
        break;
      }
      if best.Some? && (t.floor[i].value > best.value.excess || (best.value.excess == 0.0 && t.q[i] >= best.value.score)) {
        break;
      }
      if best.Some? && spent(n) {
        cut := true;
        return;
      }
      assert order[..n + 1] == order[..n] + [i];
      if t.one[i].Some? {
        var e := t.one[i].value;
        var score := Score(t, i, e.quiet as real);
        if best.None? || e.excess < best.value.excess || (e.excess == best.value.excess && score < best.value.score) {
          best := Some(Best(i, e.excess, e.quiet, score));
        }
      }
      n := n + 1;
    }
    forall i | 0 <= i < |t.q| && t.one[i].Some?
      ensures best.Some? && NoBetter(t.one[i].value, Score(t, i, t.one[i].value.quiet as real), best.value)
    {
      assert i in order;
      var k :| 0 <= k < |order| && order[k] == i;
      if k < n {
        assert order[..n][k] == i;
      } else {
        ScoreAtLeastQ(t, i, t.one[i].value.quiet as real);
        RestIsNoBetter(t, order, n, k, best);
      }
    }
  }

  /** When the loop stops at position `n`, nothing from there on beats the best. */
  lemma {:induction false} RestIsNoBetter(t: Table, order: seq<nat>, n: nat, k: nat, best: Option<Best>)
    requires ValidTable(t) && Visits(t.floor, t.q, order) && n <= k < |order|
    requires t.floor[order[n]].None? || (best.Some? && (t.floor[order[n]].value > best.value.excess ||
      (best.value.excess == 0.0 && t.q[order[n]] >= best.value.score)))
    requires t.one[order[k]].Some?
    ensures best.Some? && NoBetter(t.one[order[k]].value, Score(t, order[k], t.one[order[k]].value.quiet as real), best.value)
  {
    hide Score;
    ScoreAtLeastQ(t, order[k], t.one[order[k]].value.quiet as real);
    assert k == n || Sooner(t.floor, t.q, order[n], order[k]);
  }

  // ---------------------------------------------------------------- one outreach for everyone

  /** What one shared outreach gives the whole team: the worst excess, the excess in all, and the score. */
  datatype Shared = Shared(i: nat, worst: real, total: real, score: real)

  predicate LexLess(a: Shared, b: Shared) {
    a.worst < b.worst || (a.worst == b.worst && (a.total < b.total || (a.total == b.total && a.score < b.score)))
  }

  function WorstOf(es: seq<Eval>): real
    requires es != []
  {
    if |es| == 1 then es[0].excess
    else
      var before := WorstOf(es[..|es| - 1]);
      if before < es[|es| - 1].excess then es[|es| - 1].excess else before
  }

  function TotalOf(es: seq<Eval>): real {
    if es == [] then 0.0 else TotalOf(es[..|es| - 1]) + es[|es| - 1].excess
  }

  function QuietOf(es: seq<Eval>): nat {
    if es == [] then 0 else QuietOf(es[..|es| - 1]) + es[|es| - 1].quiet
  }

  /** The worst excess is the greatest; the excess in all and the empty days in all are sums, in whatever order. */
  lemma {:induction false} SumsAreSums(a: seq<Eval>, b: seq<Eval>, e: Eval)
    ensures TotalOf([e]) == e.excess && TotalOf(a + b) == TotalOf(a) + TotalOf(b)
    ensures QuietOf([e]) == e.quiet && QuietOf(a + b) == QuietOf(a) + QuietOf(b)
  {
    assert [e][..0] == [];
    if b == [] {
      assert a + b == a;
    } else {
      assert (a + b)[..|a + b| - 1] == a + b[..|b| - 1];
      SumsAreSums(a, b[..|b| - 1], e);
    }
  }

  lemma {:induction false} WorstIsGreatest(es: seq<Eval>)
    requires es != []
    ensures exists c :: 0 <= c < |es| && es[c].excess == WorstOf(es)
    ensures forall c :: 0 <= c < |es| ==> es[c].excess <= WorstOf(es)
  {
    if |es| == 1 {
      assert es[0].excess == WorstOf(es);
    } else {
      var before := es[..|es| - 1];
      WorstIsGreatest(before);
      var c :| 0 <= c < |before| && before[c].excess == WorstOf(before);
      assert es[c] == before[c];
      assert es[c].excess == WorstOf(es) || es[|es| - 1].excess == WorstOf(es);
      forall k | 0 <= k < |es|
        ensures es[k].excess <= WorstOf(es)
      {
        if k < |before| {
          assert es[k] == before[k];
        }
      }
    }
  }

  /** Every FO's table over the same outreaches. */
  ghost predicate ValidTeam(team: seq<Table>) {
    && team != []
    && (forall c :: 0 <= c < |team| ==> ValidTable(team[c]) && team[c].q == team[0].q && team[c].days == team[0].days)
  }

  predicate AllServed(team: seq<Table>, i: nat)
    requires forall c :: 0 <= c < |team| ==> i < |team[c].one|
  {
    forall c :: 0 <= c < |team| ==> team[c].one[i].Some?
  }

  function Evals(team: seq<Table>, i: nat): (es: seq<Eval>)
    requires forall c :: 0 <= c < |team| ==> i < |team[c].one|
    requires AllServed(team, i)
    ensures |es| == |team|
  {
    seq(|team|, c requires 0 <= c < |team| => team[c].one[i].value)
  }

  /** together: the team on outreach `i`, or nothing when someone cannot be scheduled on it. */
  function Together(team: seq<Table>, i: nat): Option<Shared>
    requires ValidTeam(team) && i < |team[0].q|
  {
    if !AllServed(team, i) then None
    else
      var es := Evals(team, i);
      Some(Shared(i, WorstOf(es), TotalOf(es), Score(team[0], i, (QuietOf(es) as real) / (|team| as real))))
  }

  /** The least excess someone on the team would need. */
  function WorstFloor(team: seq<Table>, i: nat): Option<real>
    requires forall c :: 0 <= c < |team| ==> i < |team[c].floor|
  {
    if team == [] then Some(0.0)
    else
      var before := WorstFloor(team[..|team| - 1], i);
      var last := team[|team| - 1].floor[i];
      if before.None? || last.None? then None
      else if before.value < last.value then last else before
  }

  function WorstFloors(team: seq<Table>): (floors: seq<Option<real>>)
    requires ValidTeam(team)
    ensures |floors| == |team[0].q|
  {
    seq(|team[0].q|, i requires 0 <= i < |team[0].q| => WorstFloor(team, i))
  }

  /** The shared worst excess is at least the worst floor, and no excess at worst is none in all. */
  lemma {:induction false} TogetherBounds(team: seq<Table>, i: nat, n: nat)
    requires ValidTeam(team) && i < |team[0].q| && AllServed(team, i) && 1 <= n <= |team|
    ensures var es := Evals(team, i)[..n];
      && WorstFloor(team[..n], i).Some? && WorstFloor(team[..n], i).value <= WorstOf(es)
      && TotalOf(es) >= 0.0 && WorstOf(es) >= 0.0
      && (WorstOf(es) == 0.0 ==> TotalOf(es) == 0.0)
  {
    var es := Evals(team, i)[..n];
    assert es[..n - 1] == Evals(team, i)[..n - 1];
    assert team[..n][..n - 1] == team[..n - 1];
    assert ValidTable(team[n - 1]);
    if n > 1 {
      TogetherBounds(team, i, n - 1);
    } else {
      assert TotalOf(es[..0]) == 0.0;
      assert WorstFloor(team[..0], i) == Some(0.0);
    }
  }

  ghost predicate StarOf(team: seq<Table>, seen: seq<nat>, star: Option<Shared>)
    requires ValidTeam(team) && forall k :: 0 <= k < |seen| ==> seen[k] < |team[0].q|
  {
    && (star.Some? ==> star.value.i < |team[0].q| && Together(team, star.value.i) == star)
    && forall k :: 0 <= k < |seen| && Together(team, seen[k]).Some? ==>
         star.Some? && !LexLess(Together(team, seen[k]).value, star.value)
  }

  /**
   * star: the shared outreach. Unless the budget ended the loop, no outreach gives a lower worst
   * excess, a lower total at that worst, or a better score at both.
   */
  method Star(team: seq<Table>, spent: nat -> bool) returns (star: Option<Shared>, cut: bool)
    requires ValidTeam(team)
    ensures star.Some? ==> star.value.i < |team[0].q| && Together(team, star.value.i) == star
    ensures !cut ==> forall i :: 0 <= i < |team[0].q| && Together(team, i).Some? ==>
      star.Some? && !LexLess(Together(team, i).value, star.value)
  {
    hide Together, WorstFloor, SortedIndexes;
    star, cut := None, false;
    var floors, q := WorstFloors(team), team[0].q;
    var order := SortedIndexes(floors, q);
    SortedIndexesVisit(floors, q);
    var n := 0;
    while n < |order|
      invariant 0 <= n <= |order| && !cut
      invariant StarOf(team, order[..n], star)
    {
      var i := order[n];
      if floors[i].None? {
        break;
      }
      if star.Some? && (floors[i].value > star.value.worst || (star.value.worst == 0.0 && q[i] >= star.value.score)) {
        break;
      }
      if spent(n) {
        cut := true;
        return;
      }
      assert order[..n + 1] == order[..n] + [i];
      var t := Together(team, i);
      if t.Some? {
        assert t.value.i == i by { TogetherNames(team, i); }
        if star.None? || LexLess(t.value, star.value) {
          star := t;
        }
      }
      n := n + 1;
    }
    forall i | 0 <= i < |q| && Together(team, i).Some?
      ensures star.Some? && !LexLess(Together(team, i).value, star.value)
    {
      assert i in order;
      var k :| 0 <= k < |order| && order[k] == i;
      if k < n {
        assert order[..n][k] == i;
      } else {
        RestIsNoStar(team, order, n, k, star);
      }
    }
  }

  lemma {:induction false} TogetherNames(team: seq<Table>, i: nat)
    requires ValidTeam(team) && i < |team[0].q| && Together(team, i).Some?
    ensures Together(team, i).value.i == i
  {
  }

  lemma {:induction false} RestIsNoStar(team: seq<Table>, order: seq<nat>, n: nat, k: nat, star: Option<Shared>)
    requires ValidTeam(team) && Visits(WorstFloors(team), team[0].q, order) && n <= k < |order|
    requires var floor := WorstFloors(team)[order[n]];
      floor.None? || (star.Some? && (floor.value > star.value.worst || (star.value.worst == 0.0 && team[0].q[order[n]] >= star.value.score)))
    requires Together(team, order[k]).Some?
    requires star.Some? ==> star.value.i < |team[0].q| && Together(team, star.value.i) == star
    ensures star.Some? && !LexLess(Together(team, order[k]).value, star.value)
  {
    hide Score, WorstOf, TotalOf, QuietOf;
    var floors := WorstFloors(team);
    var es := Evals(team, order[k]);
    TogetherBounds(team, order[k], |team|);
    assert team[..|team|] == team && es[..|team|] == es;
    DivNonNegative(QuietOf(es) as real, |team| as real);
    ScoreAtLeastQ(team[0], order[k], (QuietOf(es) as real) / (|team| as real));
    assert k == n || Sooner(floors, team[0].q, order[n], order[k]);
    if star.Some? {
      var own := Evals(team, star.value.i);
      TogetherBounds(team, star.value.i, |team|);
      assert own[..|team|] == own;
    }
  }
}
