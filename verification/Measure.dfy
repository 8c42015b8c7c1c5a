/**
 * Counting batches without building them: runsOf and measure of src/lib/campaign-fit.ts, why what
 * they call crowded or sparse cannot be arranged, and the search for the longest part of a queue
 * that fits at a pace.
 */
module Measure {
  import opened Days
  import opened Placement
  import opened Starts
  import opened Room
  import opened Queues
  import opened Campaign

  /** Consecutive people on one outreach. */
  datatype Run = Run(flow: Id, length: nat)

  function Runs(d: Draft, queue: seq<Person>): seq<Run> {
    if queue == [] then []
    else
      var id := FlowId(d, queue[|queue| - 1]);
      var before := Runs(d, queue[..|queue| - 1]);
      if before != [] && before[|before| - 1].flow == id then
        before[|before| - 1 := Run(id, before[|before| - 1].length + 1)]
      else before + [Run(id, 1)]
  }

  /** runsOf: the runs of the first `take` people. */
  method RunsOf(d: Draft, queue: seq<Person>, take: nat) returns (runs: seq<Run>)
    requires take <= |queue|
    ensures runs == Runs(d, queue[..take])
  {
    runs := [];
    for n := 0 to take
      invariant runs == Runs(d, queue[..n])
    {
      assert queue[..n + 1][..n] == queue[..n];
      var id := FlowId(d, queue[n]);
      var last := |runs| - 1;
      if last >= 0 && runs[last].flow == id {
        runs := runs[last := Run(id, runs[last].length + 1)];
      } else {
        runs := runs + [Run(id, 1)];
      }
    }
  }

  /** Math.ceil(length / pace). */
  function Ceil(length: nat, pace: nat): nat
    requires pace >= 1
  {
    if length == 0 then 0 else (length - 1) / pace + 1
  }

  function Count(runs: seq<Run>, pace: nat): nat
    requires pace >= 1
  {
    if runs == [] then 0 else Count(runs[..|runs| - 1], pace) + Ceil(runs[|runs| - 1].length, pace)
  }

  function RunTouches(d: Draft, runs: seq<Run>, pace: nat): nat
    requires pace >= 1 && |d.flows| >= 1
  {
    if runs == [] then 0
    else RunTouches(d, runs[..|runs| - 1], pace) + Ceil(runs[|runs| - 1].length, pace) * |Steps(d, runs[|runs| - 1].flow)|
  }

  function PerFlow(runs: seq<Run>, pace: nat, id: Id): nat
    requires pace >= 1
  {
    if runs == [] then 0
    else PerFlow(runs[..|runs| - 1], pace, id) + (if runs[|runs| - 1].flow == id then Ceil(runs[|runs| - 1].length, pace) else 0)
  }

  /** More batches than an outreach has start days, than the window has days, or than it has room for touchpoints. */
  ghost predicate Crowded(w: Window, d: Draft, runs: seq<Run>, pace: nat)
    requires ValidDraft(d) && pace >= 1
  {
    || (exists id :: TooMany(w, d, runs, pace, id))
    || Count(runs, pace) > |w.Days()|
    || RunTouches(d, runs, pace) > 2 * |w.Days()| - 1
  }

  predicate TooMany(w: Window, d: Draft, runs: seq<Run>, pace: nat, id: Id)
    requires ValidDraft(d) && pace >= 1
  {
    StepsAreValid(d, id);
    PerFlow(runs, pace, id) > StartCount(w, Steps(d, id))
  }

  predicate Sparse(w: Window, d: Draft, runs: seq<Run>, pace: nat)
    requires |d.flows| >= 1 && pace >= 1
  {
    RunTouches(d, runs, pace) < |w.Days()|
  }

  datatype Measured = Measured(count: nat, touches: nat, crowded: bool, sparse: bool)

  /** measure: one pass over the runs filling a table of batches per outreach, one over the table. */
  method MeasureRuns(w: Window, d: Draft, runs: seq<Run>, pace: nat) returns (m: Measured)
    requires ValidDraft(d) && pace >= 1
    ensures m.count == Count(runs, pace) && m.touches == RunTouches(d, runs, pace)
    ensures m.crowded <==> Crowded(w, d, runs, pace)
    ensures m.sparse <==> Sparse(w, d, runs, pace)
  {
    hide ValidDraft, ValidFlow, WorkingDays, StartsOf, Ceil;
    AtLeastOneFlow(d);
    var count, touches := 0, 0;
    var perFlow: map<Id, nat> := map[];
    for n := 0 to |runs|
      invariant count == Count(runs[..n], pace) && touches == RunTouches(d, runs[..n], pace)
      invariant forall id :: PerFlow(runs[..n], pace, id) == if id in perFlow then perFlow[id] else 0
    {
      assert runs[..n + 1][..n] == runs[..n];
      var r := runs[n];
      var batches := Ceil(r.length, pace);
      count := count + batches;
      touches := touches + batches * |Steps(d, r.flow)|;
      perFlow := perFlow[r.flow := (if r.flow in perFlow then perFlow[r.flow] else 0) + batches];
    }
    assert runs[..|runs|] == runs;
    var startsOk, left := true, perFlow.Keys;
    while left != {}
      invariant left <= perFlow.Keys
      invariant startsOk <==> forall id :: id in perFlow.Keys - left ==> !TooMany(w, d, runs, pace, id)
      decreases left
    {
      var id :| id in left;
      StepsAreValid(d, id);
      var starts := StartsFor(w, Steps(d, id));
      if perFlow[id] > starts {
        startsOk := false;
      }
      left := left - {id};
      assert TooMany(w, d, runs, pace, id) <==> perFlow[id] > starts;
    }
    forall id | id !in perFlow
      ensures !TooMany(w, d, runs, pace, id)
    {
    }
    m := Measured(count, touches, !startsOk || count > |w.Days()| || touches > 2 * |w.Days()| - 1, touches < |w.Days()|);
  }

  lemma {:induction false} AtLeastOneFlow(d: Draft)
    requires ValidDraft(d)
    ensures |d.flows| >= 1
  {
  }

  // ---------------------------------------------------------------- the closed form is greedy batching

  /** One more person on an outreach needs one more batch exactly when the last one is full. */
  lemma {:induction false} CeilStep(length: nat, pace: nat)
    requires length >= 1 && pace >= 1
    ensures Ceil(length + 1, pace) == Ceil(length, pace) + (if (length - 1) % pace + 1 == pace then 1 else 0)
    ensures length % pace == if (length - 1) % pace + 1 == pace then 0 else (length - 1) % pace + 1
  {
    var q, r := (length - 1) / pace, (length - 1) % pace;
    if r + 1 == pace {
      DivUnique(length, pace, q + 1, 0);
    } else {
      DivUnique(length, pace, q, r + 1);
    }
  }

  lemma {:induction false} DivUnique(x: nat, pace: nat, q: nat, r: nat)
    requires pace >= 1 && r < pace && x == q * pace + r
    ensures x / pace == q && x % pace == r
  {
    var e := x / pace - q;
    assert x == (x / pace) * pace + x % pace;
    assert e * pace == r - x % pace;
    NoSmallMultiple(e, pace);
  }

  lemma {:induction false} NoSmallMultiple(e: int, pace: int)
    requires pace >= 1
    ensures e * pace == 0 || e * pace >= pace || e * pace <= 0 - pace
    ensures e * pace == 0 ==> e == 0
  {
    if e >= 1 {
      assert (e - 1) * pace >= 0;
    } else if e <= -1 {
      assert (e + 1) * pace <= 0;
    }
  }

  function Of(batches: seq<Batch>, id: Id): nat {
    if batches == [] then 0
    else Of(batches[..|batches| - 1], id) + (if batches[|batches| - 1].flow == id then 1 else 0)
  }

  /** The last batch holds what the last run leaves over, and no less. */
  ghost predicate LastAgrees(batches: seq<Batch>, runs: seq<Run>, pace: nat)
    requires pace >= 1
  {
    && (batches == [] <==> runs == [])
    && (runs != [] ==>
        var b, r := batches[|batches| - 1], runs[|runs| - 1];
        b.flow == r.flow && r.length >= 1 && |b.people| == (r.length - 1) % pace + 1)
  }

  /** The counts agree, in total and for each outreach. */
  ghost predicate CountsAgree(d: Draft, batches: seq<Batch>, runs: seq<Run>, pace: nat)
    requires ValidDraft(d) && pace >= 1
  {
    && |batches| == Count(runs, pace)
    && Touches(FlowsOf(d, batches)) == RunTouches(d, runs, pace)
    && forall id :: Of(batches, id) == PerFlow(runs, pace, id)
  }

  /** One more person on the last run's outreach: into the last batch while it has room. */
  lemma {:induction false} AgreesLonger(d: Draft, bs: seq<Batch>, rs: seq<Run>, p: Person, pace: nat)
    requires ValidDraft(d) && pace >= 1 && LastAgrees(bs, rs, pace) && CountsAgree(d, bs, rs, pace)
    requires rs != [] && rs[|rs| - 1].flow == FlowId(d, p)
    ensures var id, n, b := FlowId(d, p), |rs| - 1, |bs| - 1;
      var longer := rs[n := Run(id, rs[n].length + 1)];
      var grown := if |bs[b].people| < pace then bs[b := bs[b].(people := bs[b].people + [p])] else bs + [Batch(id, [p])];
      LastAgrees(grown, longer, pace) && CountsAgree(d, grown, longer, pace)
  {
    hide ValidDraft, ValidFlow, FlowId, Ceil, FlowsOf, Steps, Touches, Count, RunTouches, PerFlow, Of;
    var r := rs[|rs| - 1];
    CeilStep(r.length, pace);
    LongerRun(d, rs, pace);
    if |bs[|bs| - 1].people| < pace {
      FullerBatch(d, bs, p);
    } else {
      NewBatch(d, bs, Batch(r.flow, [p]));
    }
  }

  /** The first person on another outreach: a run and a batch of their own. */
  lemma {:induction false} AgreesNew(d: Draft, bs: seq<Batch>, rs: seq<Run>, p: Person, pace: nat)
    requires ValidDraft(d) && pace >= 1 && CountsAgree(d, bs, rs, pace)
    ensures var id := FlowId(d, p);
      LastAgrees(bs + [Batch(id, [p])], rs + [Run(id, 1)], pace) && CountsAgree(d, bs + [Batch(id, [p])], rs + [Run(id, 1)], pace)
  {
    hide ValidDraft, ValidFlow, FlowId, Ceil, FlowsOf, Steps, Touches, Count, RunTouches, PerFlow, Of;
    NewRun(d, rs, FlowId(d, p), pace);
    NewBatch(d, bs, Batch(FlowId(d, p), [p]));
    DivUnique(0, pace, 0, 0);
  }

  /** The closed form counts exactly the batches and touchpoints greedy batching builds. */
  lemma {:induction false} ClosedFormIsBatching(d: Draft, queue: seq<Person>, pace: nat)
    requires ValidDraft(d) && pace >= 1
    ensures LastAgrees(Batches(d, queue, pace), Runs(d, queue), pace)
    ensures CountsAgree(d, Batches(d, queue, pace), Runs(d, queue), pace)
  {
    hide ValidDraft, ValidFlow, FlowId, CountsAgree;
    if queue == [] {
      NothingAgrees(d, pace);
    } else {
      var n := |queue| - 1;
      ClosedFormIsBatching(d, queue[..n], pace);
      var bs, rs := Batches(d, queue[..n], pace), Runs(d, queue[..n]);
      if rs != [] && rs[|rs| - 1].flow == FlowId(d, queue[n]) {
        AgreesLonger(d, bs, rs, queue[n], pace);
      } else {
        AgreesNew(d, bs, rs, queue[n], pace);
      }
    }
  }

  lemma {:induction false} NothingAgrees(d: Draft, pace: nat)
    requires ValidDraft(d) && pace >= 1
    ensures CountsAgree(d, [], [], pace)
  {
    assert FlowsOf(d, []) == [];
  }

  lemma {:induction false} LongerRun(d: Draft, runs: seq<Run>, pace: nat)
    requires ValidDraft(d) && pace >= 1 && runs != []
    ensures var n := |runs| - 1; var r := runs[n]; var longer := runs[n := Run(r.flow, r.length + 1)];
      var more := Ceil(r.length + 1, pace) - Ceil(r.length, pace);
      && Count(longer, pace) == Count(runs, pace) + more
      && RunTouches(d, longer, pace) == RunTouches(d, runs, pace) + more * |Steps(d, r.flow)|
      && (more >= 0 ==> RunTouches(d, longer, pace) >= RunTouches(d, runs, pace))
      && forall id :: PerFlow(longer, pace, id) == PerFlow(runs, pace, id) + if id == r.flow then more else 0
  {
    hide ValidDraft, ValidFlow, Ceil;
    AtLeastOneFlow(d);
    var n := |runs| - 1;
    var r := runs[n];
    assert runs[n := Run(r.flow, r.length + 1)][..n] == runs[..n];
    var s, a, b := |Steps(d, r.flow)|, Ceil(r.length + 1, pace), Ceil(r.length, pace);
    Distribute(a, b, s);
  }

  lemma {:induction false} Distribute(a: int, b: int, s: nat)
    ensures (a - b) * s == a * s - b * s
    ensures a >= b ==> a * s >= b * s
  {
    assert a >= b ==> (a - b) * s >= 0;
  }

  lemma {:induction false} NewRun(d: Draft, runs: seq<Run>, flow: Id, pace: nat)
    requires ValidDraft(d) && pace >= 1
    ensures var longer := runs + [Run(flow, 1)];
      && Count(longer, pace) == Count(runs, pace) + 1
      && RunTouches(d, longer, pace) == RunTouches(d, runs, pace) + |Steps(d, flow)|
      && forall id :: PerFlow(longer, pace, id) == PerFlow(runs, pace, id) + if id == flow then 1 else 0
  {
    hide ValidDraft, ValidFlow;
    AtLeastOneFlow(d);
    assert (runs + [Run(flow, 1)])[..|runs|] == runs;
    DivUnique(0, pace, 0, 0);
    assert Ceil(1, pace) == 1;
  }

  lemma {:induction false} FullerBatch(d: Draft, batches: seq<Batch>, p: Person)
    requires ValidDraft(d) && batches != []
    ensures var n := |batches| - 1; var fuller := batches[n := batches[n].(people := batches[n].people + [p])];
      && FlowsOf(d, fuller) == FlowsOf(d, batches)
      && forall id :: Of(fuller, id) == Of(batches, id)
  {
    hide ValidDraft, ValidFlow, ValidFlows;
    var n := |batches| - 1;
    assert batches[n := batches[n].(people := batches[n].people + [p])][..n] == batches[..n];
  }

  lemma {:induction false} NewBatch(d: Draft, batches: seq<Batch>, b: Batch)
    requires ValidDraft(d)
    ensures FlowsOf(d, batches + [b]) == FlowsOf(d, batches) + [Steps(d, b.flow)]
    ensures Touches(FlowsOf(d, batches + [b])) == Touches(FlowsOf(d, batches)) + |Steps(d, b.flow)|
    ensures forall id :: Of(batches + [b], id) == Of(batches, id) + if b.flow == id then 1 else 0
  {
    hide ValidDraft, ValidFlow, ValidFlows;
    AtLeastOneFlow(d);
    assert (batches + [b])[..|batches|] == batches;
    var flows := FlowsOf(d, batches);
    assert (flows + [Steps(d, b.flow)])[..|flows|] == flows;
  }

  // ---------------------------------------------------------------- crowded and sparse refute

  /** Batches of one outreach start on different days, all among the outreach's start days. */
  lemma {:induction false} PerFlowFits(w: Window, d: Draft, batches: seq<Batch>, plan: seq<Start>, id: Id, n: nat)
    requires ValidDraft(d) && Arrangement(w, FlowsOf(d, batches), plan) && n <= |batches|
    ensures ValidFlow(Steps(d, id)) && Of(batches[..n], id) <= n
    ensures Of(batches[..n], id) <= StartCount(w, Steps(d, id))
  {
    hide ValidDraft, ValidFlow, ValidFlows, WorkingDays, StartsOf, Compatible, FinishesBy;
    AtLeastOneFlow(d);
    StepsAreValid(d, id);
    if n > 0 {
      PerFlowFits(w, d, batches, plan, id, n - 1);
      assert batches[..n][..n - 1] == batches[..n - 1];
      if batches[n - 1].flow == id {
        StartsSpread(plan, n - 1);
        assert IsStart(w, FlowsOf(d, batches)[n - 1], plan[n - 1]);
        StartIsEarly(w, Steps(d, id), plan[n - 1]);
      }
    }
  }

  lemma {:induction false} StartIsEarly(w: Window, f: Flow, o: Start)
    requires ValidFlow(f) && IsStart(w, f, o)
    ensures o.index < StartCount(w, f)
  {
    hide ValidFlow, WorkingDays;
    StartsAreOptions(w, f);
    assert o in StartsOf(w, f);
    var x :| 0 <= x < |StartsOf(w, f)| && StartsOf(w, f)[x] == o;
    StartsArePrefix(w, f, x);
  }

  /** A crowded pace has no arrangement at all; a sparse one has none that uses every day. */
  lemma {:induction false} MeasureRefutes(w: Window, d: Draft, queue: seq<Person>, pace: nat, plan: seq<Start>)
    requires ValidDraft(d) && pace >= 1 && queue != [] && |w.Days()| >= 1
    requires Arrangement(w, FlowsOf(d, Batches(d, queue, pace)), plan)
    ensures !Crowded(w, d, Runs(d, queue), pace)
    ensures Sparse(w, d, Runs(d, queue), pace) ==> QuietDays(w.Days(), plan) != {}
  {
    hide ValidDraft, ValidFlow, ValidFlows, WorkingDays, StartsOf, Arrangement, Batches, Touches, QuietDays, Runs;
    var batches, runs := Batches(d, queue, pace), Runs(d, queue);
    var flows := FlowsOf(d, batches);
    AtLeastOneFlow(d);
    ClosedFormIsBatching(d, queue, pace);
    RunsExist(d, queue);
    TouchesFit(w, flows, plan);
    BatchesFit(w, flows, plan);
    SparseLeavesDays(w, flows, plan);
    assert batches[..|batches|] == batches;
    forall id
      ensures !TooMany(w, d, runs, pace, id)
    {
      PerFlowFits(w, d, batches, plan, id, |batches|);
    }
  }

  lemma {:induction false} RunsExist(d: Draft, queue: seq<Person>)
    requires queue != []
    ensures Runs(d, queue) != []
  {
  }

  // ---------------------------------------------------------------- the longest part that fits

  /** One more person never makes a crowded queue fit. */
  lemma {:induction false} CrowdedByOneMore(w: Window, d: Draft, queue: seq<Person>, pace: nat)
    requires ValidDraft(d) && pace >= 1 && queue != []
    requires Crowded(w, d, Runs(d, queue[..|queue| - 1]), pace)
    ensures Crowded(w, d, Runs(d, queue), pace)
  {
    hide ValidDraft, ValidFlow, WorkingDays, Crowded, Ceil, FlowId, Count, RunTouches, PerFlow, Steps;
    AtLeastOneFlow(d);
    var rs, id := Runs(d, queue[..|queue| - 1]), FlowId(d, queue[|queue| - 1]);
    if rs != [] && rs[|rs| - 1].flow == id {
      LongerRun(d, rs, pace);
      CeilGrows(rs[|rs| - 1].length, pace);
    } else {
      NewRun(d, rs, id, pace);
    }
    StillCrowded(w, d, rs, Runs(d, queue), pace);
  }

  lemma {:induction false} CrowdedGrows(w: Window, d: Draft, queue: seq<Person>, pace: nat, m: nat, n: nat)
    requires ValidDraft(d) && pace >= 1 && m <= n <= |queue|
    requires Crowded(w, d, Runs(d, queue[..m]), pace)
    ensures Crowded(w, d, Runs(d, queue[..n]), pace)
    decreases n - m
  {
    hide ValidDraft, Crowded, Runs;
    if m < n {
      assert queue[..m + 1][..m] == queue[..m];
      CrowdedByOneMore(w, d, queue[..m + 1], pace);
      CrowdedGrows(w, d, queue, pace, m + 1, n);
    }
  }

  lemma {:induction false} CeilGrows(length: nat, pace: nat)
    requires pace >= 1
    ensures Ceil(length + 1, pace) >= Ceil(length, pace)
  {
    if length >= 1 {
      CeilStep(length, pace);
    }
  }

  lemma {:induction false} StillCrowded(w: Window, d: Draft, runs: seq<Run>, longer: seq<Run>, pace: nat)
    requires ValidDraft(d) && pace >= 1 && Crowded(w, d, runs, pace)
    requires Count(runs, pace) <= Count(longer, pace)
    requires |d.flows| >= 1 && RunTouches(d, runs, pace) <= RunTouches(d, longer, pace)
    requires forall id :: PerFlow(runs, pace, id) <= PerFlow(longer, pace, id)
    ensures Crowded(w, d, longer, pace)
  {
    hide ValidDraft, ValidFlow, WorkingDays, StartsOf;
    if id :| TooMany(w, d, runs, pace, id) {
      assert TooMany(w, d, longer, pace, id);
    }
  }

  /**
   * The trim search: by halving, the longest proper part of the queue that is not crowded, or 0
   * when even one person is.
   */
  method LongestThatFits(w: Window, d: Draft, queue: seq<Person>, pace: nat) returns (most: nat)
    requires ValidDraft(d) && pace >= 1 && queue != []
    ensures most < |queue|
    ensures most > 0 ==> !Crowded(w, d, Runs(d, queue[..most]), pace)
    ensures forall n :: most < n < |queue| ==> Crowded(w, d, Runs(d, queue[..n]), pace)
  {
    hide ValidDraft, ValidFlow, WorkingDays, Crowded, Runs;
    var lo, hi := 1, |queue| - 1;
    most := 0;
    while lo <= hi
      invariant 1 <= lo <= hi + 1 <= |queue| && most == lo - 1
      invariant most > 0 ==> !Crowded(w, d, Runs(d, queue[..most]), pace)
      invariant forall n :: hi < n < |queue| ==> Crowded(w, d, Runs(d, queue[..n]), pace)
      decreases hi - lo
    {
      var mid := (lo + hi) / 2;
      var runs := RunsOf(d, queue, mid);
      var m := MeasureRuns(w, d, runs, pace);
      if !m.crowded {
        most, lo := mid, mid + 1;
      } else {
        forall n | mid <= n < |queue|
          ensures Crowded(w, d, Runs(d, queue[..n]), pace)
        {
          CrowdedGrows(w, d, queue, pace, mid, n);
        }
        hi := mid - 1;
      }
    }
  }
}
