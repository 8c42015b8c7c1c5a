/** Publishing and changing CRM campaigns as interleaved transactions. */
module Publishing {
  // The transactions of src/lib: campaign-planning-service.ts, campaign-add-fo.ts,
  // campaign-people.ts, campaign-delete.ts, blocked-accounts.ts, and the launch and status changes
  // of engine/campaign-calendar.ts and engine/campaigns.ts.

  import opened Days
  import opened Locks

  type People = set<Id>

  datatype Status = Draft | PendingApproval | Scheduled | Active | Paused | Stopped

  /** `people` is personIds; `request` is who the next re-plan asks for; `started` says it has enrollments. */
  datatype Row = Row(status: Status, people: People, request: People, followup: bool, started: bool)

  type Rows = map<Id, Row>

  predicate Live(r: Row) {
    r.status in {Scheduled, Active, Paused}
  }

  /** What the audience check counts as holding its people. */
  predicate Holding(r: Row) {
    Live(r) || r.status == PendingApproval
  }

  datatype Job =
    | Publish(campaign: Id, isNew: bool, ask: People, checked: People, reviewed: People)
    | Replan(campaign: Id, add: People, drop: People)
    | AddFo(campaign: Id, ask: People)
    | SaveDraft(campaign: Id, isNew: bool, people: People)
    | AddPeople(campaign: Id, accepted: People)
    | RemovePeople(campaign: Id, drop: People)
    | Delete(campaign: Id)
    | Launch(campaign: Id)
    | ChangeStatus(campaign: Id, to: Status)
    | Block(account: Id)
    | Unblock(account: Id)

  predicate OnCampaign(j: Job) {
    !j.Block? && !j.Unblock?
  }

  /** Re-plans under the publication lock and may make people live. */
  predicate Plans(j: Job) {
    j.Publish? || j.Replan? || j.AddFo?
  }

  /** Checks its people against who is taken and which accounts are blocked; saving a follow-up does so too. */
  predicate Checks(j: Job) {
    Plans(j) || j.SaveDraft?
  }

  predicate Publishes(j: Job) {
    Plans(j) || j.RemovePeople? || j.Delete? || j.Launch?
  }

  /**
   * One open transaction: its locks so far, and what it has read since it had them all: its own
   * campaign, who is taken, and which accounts are blocked.
   */
  datatype Txn = Txn(job: Job, locks: seq<Lock>, got: nat, seen: Option<Option<Row>>, taken: Option<People>, barred: Option<set<Id>>)

  datatype State = State(company: map<Id, Id>, rows: Rows, blocked: set<Id>, table: LockTable, txns: map<Id, Txn>)

  // ---------------------------------------------------------------- beginning and locking

  function AccountsOf(company: map<Id, Id>, people: People): set<Id> {
    set p | p in people && p in company :: company[p]
  }

  function Change(j: Job, request: People): People
    requires j.Replan?
  {
    (request + j.add) - j.drop
  }

  /** The people whose accounts a transaction locks: a look taken before it has any lock. */
  function LookedAt(s: State, j: Job): People {
    match j
    case Publish(_, _, _, checked, _) => checked
    case Replan(c, _, _) => if c in s.rows then Change(j, s.rows[c].request) else {}
    case AddFo(_, ask) => ask
    case Launch(c) => if c in s.rows then s.rows[c].people else {}
    case _ => {}
  }

  function LockedAccounts(s: State, j: Job): set<Id> {
    if j.Block? || j.Unblock? then {j.account} else AccountsOf(s.company, LookedAt(s, j))
  }

  ghost function LocksFor(s: State, j: Job): seq<Lock> {
    LockList(LockedAccounts(s, j), Publishes(j), if OnCampaign(j) then Some(j.campaign) else None)
  }

  // ---------------------------------------------------------------- reading

  /** Everyone a campaign holds, apart from the campaign being planned (a joining FO's check spares none). */
  function HeldPeople(rows: Rows, j: Job): People
    requires Checks(j)
  {
    set c, p | c in rows && (j.AddFo? || c != j.campaign) && Holding(rows[c]) && p in rows[c].people :: p
  }

  predicate Ready(x: Txn) {
    x.got == |x.locks|
  }

  function Lookup(rows: Rows, c: Id): Option<Row> {
    if c in rows then Some(rows[c]) else None
  }

  // ---------------------------------------------------------------- writing

  /** How a transaction ends when it does not fail: the people a plan kept, a plan withdrawn, or a plain write. */
  datatype Outcome = Kept(people: People) | Withdrawn | Plain

  /** Whom a plan may keep: those asked for who are neither taken nor at a blocked account. */
  function Allowed(s: State, x: Txn, ask: People): People
    requires x.taken.Some? && x.barred.Some?
  {
    set p | p in ask && p !in x.taken.value && !(p in s.company && s.company[p] in x.barred.value)
  }

  predicate Editable(r: Row) {
    r.status in {Draft, Scheduled, PendingApproval} && !r.started
  }

  predicate StatusAllowed(from: Status, to: Status) {
    match to
    case Paused => from in {Active, Scheduled}
    case Active => from == Paused
    case Stopped => from in {Active, Paused, Scheduled, PendingApproval, Draft}
    case _ => false
  }

  /** A transaction that plans, when its checks pass under its locks. */
  predicate PlanPasses(s: State, x: Txn, out: Outcome)
    requires Plans(x.job)
  {
    && x.seen.Some? && x.taken.Some? && x.barred.Some?
    && match x.job
       case Publish(c, isNew, ask, _, reviewed) =>
         && (if isNew then x.seen.value.None? else x.seen.value.Some? && Editable(x.seen.value.value))
         && out.Kept? && out.people == reviewed && out.people <= Allowed(s, x, ask)
       case Replan(c, _, _) =>
         && x.seen.value.Some? && x.seen.value.value.status == Scheduled && !x.seen.value.value.started
         && (out.Withdrawn? || (out.Kept? && out.people <= Allowed(s, x, Change(x.job, x.seen.value.value.request))))
       case AddFo(c, ask) =>
         && x.seen.value.Some? && x.seen.value.value.status == Active
         && out.Kept? && out.people <= Allowed(s, x, ask - x.seen.value.value.people)
       case _ => false
  }

  /** Any other transaction, when its checks pass. */
  predicate WritePasses(s: State, x: Txn, out: Outcome)
    requires !Plans(x.job)
  {
    match x.job
    case SaveDraft(c, isNew, people) =>
      && x.seen.Some?
      && (if isNew then x.seen.value.None? else x.seen.value.Some? && Editable(x.seen.value.value))
      && out.Kept?
      && (if x.seen.value.Some? && x.seen.value.value.followup
          then x.taken.Some? && x.barred.Some? && out.people <= Allowed(s, x, people)
          else out.people == people)
    case AddPeople(_, _) =>
      && out.Plain? && x.seen.Some? && x.seen.value.Some? && x.seen.value.value.status in {Draft, PendingApproval}
      && !x.seen.value.value.followup
    case RemovePeople(_, _) => out.Plain? && x.seen.Some? && x.seen.value.Some? && x.seen.value.value.status in {Draft, PendingApproval}
    case Delete(_) => out.Plain? && x.seen.Some? && x.seen.value.Some?
    case Launch(_) => out.Plain? && x.seen.Some? && x.seen.value.Some? && x.seen.value.value.status == Scheduled
    case ChangeStatus(_, to) => out.Plain? && x.seen.Some? && x.seen.value.Some? && StatusAllowed(x.seen.value.value.status, to)
    case Block(a) => out.Plain? && a !in s.blocked
    case Unblock(a) => out.Plain? && a in s.blocked
    case _ => false
  }

  predicate Passes(s: State, x: Txn, out: Outcome) {
    if Plans(x.job) then PlanPasses(s, x, out) else WritePasses(s, x, out)
  }

  /** The columns a transaction writes on its campaign; None deletes it. */
  function NewRow(x: Txn, now: Option<Row>, out: Outcome): Option<Row>
    requires OnCampaign(x.job) && x.seen.Some?
  {
    var seen := if x.seen.value.Some? then x.seen.value.value else Row(Draft, {}, {}, false, false);
    var row := if now.Some? then now.value else seen;
    var kept := if out.Kept? then out.people else {};
    match x.job
    case Publish(_, _, ask, _, _) => Some(row.(status := Scheduled, people := kept, request := ask))
    case Replan(_, _, _) =>
      var asked := Change(x.job, seen.request);
      if out.Kept? then Some(row.(people := kept, request := asked))
      else Some(row.(status := if seen.followup then PendingApproval else Draft, people := asked, request := asked))
    case AddFo(_, _) => Some(row.(people := seen.people + kept, request := seen.request + kept))
    case SaveDraft(_, _, people) => Some(row.(status := if seen.followup then PendingApproval else Draft, people := kept, request := people))
    case AddPeople(_, accepted) => Some(row.(people := seen.people + accepted, request := seen.request + accepted))
    case RemovePeople(_, drop) => Some(row.(people := seen.people - drop, request := seen.request - drop))
    case Delete(_) => None
    case Launch(_) => Some(row.(status := Active, started := true))
    case ChangeStatus(_, to) => Some(row.(status := if to == Active && !seen.started then Scheduled else to))
    case _ => now
  }

  function Put(rows: Rows, c: Id, r: Option<Row>): Rows {
    if r.Some? then rows[c := r.value] else rows - {c}
  }

  function RowsAfter(s: State, x: Txn, out: Outcome): Rows
    requires OnCampaign(x.job) ==> x.seen.Some?
  {
    if OnCampaign(x.job) then Put(s.rows, x.job.campaign, NewRow(x, Lookup(s.rows, x.job.campaign), out)) else s.rows
  }

  function BlockedAfter(s: State, j: Job): set<Id> {
    match j
    case Block(a) => s.blocked + {a}
    case Unblock(a) => s.blocked - {a}
    case _ => s.blocked
  }

  // ---------------------------------------------------------------- steps

  /** `extra`: those taken for any other reason, from enrollments to a wish not to be contacted. */
  datatype Step =
    | Begin(t: Id, job: Job)
    | Take(t: Id)
    | ReadRow(t: Id)
    | ReadTaken(t: Id, extra: People)
    | ReadBlocked(t: Id)
    | Commit(t: Id, out: Outcome)
    | Abort(t: Id)

  ghost predicate Can(s: State, a: Step) {
    match a
    case Begin(t, job) => t !in s.txns && ((job.Publish? || job.SaveDraft?) && job.isNew ==> job.campaign !in s.rows)
    case Take(t) => t in s.txns && s.txns[t].got < |s.txns[t].locks| && s.txns[t].locks[s.txns[t].got] !in s.table
    case ReadRow(t) => t in s.txns && Ready(s.txns[t]) && OnCampaign(s.txns[t].job)
    case ReadTaken(t, _) => t in s.txns && Ready(s.txns[t]) && Checks(s.txns[t].job)
    case ReadBlocked(t) => t in s.txns && Ready(s.txns[t]) && Checks(s.txns[t].job)
    case Commit(t, out) => t in s.txns && Ready(s.txns[t]) && Passes(s, s.txns[t], out)
    case Abort(t) => t in s.txns
  }

  ghost function Do(s: State, a: Step): State
    requires Can(s, a)
  {
    match a
    case Begin(t, job) => s.(txns := s.txns[t := Txn(job, LocksFor(s, job), 0, None, None, None)])
    case Take(t) =>
      var x := s.txns[t];
      s.(table := s.table[x.locks[x.got] := t], txns := s.txns[t := x.(got := x.got + 1)])
    case ReadRow(t) =>
      var x := s.txns[t];
      s.(txns := s.txns[t := x.(seen := Some(Lookup(s.rows, x.job.campaign)))])
    case ReadTaken(t, extra) =>
      var x := s.txns[t];
      s.(txns := s.txns[t := x.(taken := Some(HeldPeople(s.rows, x.job) + extra))])
    case ReadBlocked(t) => s.(txns := s.txns[t := s.txns[t].(barred := Some(s.blocked))])
    case Commit(t, out) =>
      var x := s.txns[t];
      s.(rows := RowsAfter(s, x, out), blocked := BlockedAfter(s, x.job), table := Released(s.table, t), txns := s.txns - {t})
    case Abort(t) => s.(table := Released(s.table, t), txns := s.txns - {t})
  }

  ghost predicate CanRun(s: State, run: seq<Step>)
    decreases |run|, 0
  {
    run != [] ==> CanRun(s, run[..|run| - 1]) && Can(After(s, run[..|run| - 1]), run[|run| - 1])
  }

  ghost function After(s: State, run: seq<Step>): State
    requires CanRun(s, run)
    decreases |run|, 1
  {
    if run == [] then s else Do(After(s, run[..|run| - 1]), run[|run| - 1])
  }

  // ---------------------------------------------------------------- what every step keeps

  function ClaimsOf(s: State): Claims {
    map t | t in s.txns :: Claim(s.txns[t].locks, s.txns[t].got)
  }

  /** A transaction's lock list is the one its job calls for, and it reads only once it has it all. */
  ghost predicate WellFormed(x: Txn) {
    && InOrder(x.locks)
    && (Publication in x.locks <==> Publishes(x.job))
    && (OnCampaign(x.job) ==> CampaignRow(x.job.campaign) in x.locks)
    && (!OnCampaign(x.job) ==> Account(x.job.account) in x.locks)
    && (x.seen.Some? || x.taken.Some? || x.barred.Some? ==> Ready(x))
    && (x.seen.Some? ==> OnCampaign(x.job))
    && (x.taken.Some? || x.barred.Some? ==> Checks(x.job))
  }

  /** What it read of its own campaign is still so. */
  predicate SeenIsCurrent(s: State, x: Txn) {
    x.seen.Some? && OnCampaign(x.job) ==> x.seen.value == Lookup(s.rows, x.job.campaign)
  }

  /** Everyone another live campaign holds now is among those it found taken. */
  ghost predicate TakenCovers(s: State, x: Txn) {
    x.taken.Some? && Plans(x.job) ==>
      forall c :: c in s.rows && c != x.job.campaign && Live(s.rows[c]) ==> s.rows[c].people <= x.taken.value
  }

  /** Every account it has locked and that is blocked now, it found blocked. */
  ghost predicate BarredCovers(s: State, x: Txn) {
    x.barred.Some? ==> forall a :: Account(a) in x.locks && a in s.blocked ==> a in x.barred.value
  }

  /** The people a job names before it has any lock, where they do not come from its campaign. */
  function Named(j: Job): People {
    match j
    case Publish(_, _, _, checked, _) => checked
    case AddFo(_, ask) => ask
    case _ => {}
  }

  /** The accounts of those people are among its locks. */
  ghost predicate NamedAreLocked(s: State, x: Txn) {
    forall p :: p in Named(x.job) && p in s.company ==> Account(s.company[p]) in x.locks
  }

  ghost predicate Informed(s: State, x: Txn) {
    WellFormed(x) && SeenIsCurrent(s, x) && TakenCovers(s, x) && BarredCovers(s, x) && NamedAreLocked(s, x)
  }

  /** No person is in two live campaigns. */
  ghost predicate Exclusive(rows: Rows) {
    forall c, e :: c in rows && e in rows && c != e && Live(rows[c]) && Live(rows[e]) ==> rows[c].people !! rows[e].people
  }

  ghost predicate Inv(s: State) {
    && Consistent(ClaimsOf(s), s.table)
    && (forall t :: t in s.txns ==> Informed(s, s.txns[t]))
    && Exclusive(s.rows)
  }

  /** Nothing open, nothing locked. */
  ghost predicate Quiet(s: State) {
    s.table == map[] && s.txns == map[] && Exclusive(s.rows)
  }

  lemma {:induction false} QuietIsFine(s: State)
    requires Quiet(s)
    ensures Inv(s)
  {
  }

  // ---------------------------------------------------------------- locks

  /** Ready transactions with a lock in common are one and the same. */
  lemma {:induction false} ReadyExclude(s: State, t: Id, u: Id, l: Lock)
    requires Consistent(ClaimsOf(s), s.table) && t in s.txns && u in s.txns
    requires Ready(s.txns[t]) && Ready(s.txns[u]) && l in s.txns[t].locks && l in s.txns[u].locks
    ensures t == u
  {
    var claims := ClaimsOf(s);
    assert claims[t].locks[..claims[t].got] == s.txns[t].locks;
    assert claims[u].locks[..claims[u].got] == s.txns[u].locks;
    LocksExclude(claims, s.table, t, u, l);
  }

  lemma {:induction false} NewIsInformed(s: State, job: Job)
    ensures Informed(s, Txn(job, LocksFor(s, job), 0, None, None, None))
  {
    hide LockList;
    var campaign := if OnCampaign(job) then Some(job.campaign) else None;
    LockListInOrder(LockedAccounts(s, job), Publishes(job), campaign);
    LockListHas(LockedAccounts(s, job), Publishes(job), campaign, if OnCampaign(job) then job.campaign else job.account);
    forall p | p in Named(job) && p in s.company
      ensures Account(s.company[p]) in LocksFor(s, job)
    {
      LockListHas(LockedAccounts(s, job), Publishes(job), campaign, s.company[p]);
    }
  }

  // ---------------------------------------------------------------- who else may write meanwhile

  /** Live campaigns never gain people, and no campaign comes alive. */
  ghost predicate OnlyShrinks(before: Rows, after: Rows) {
    forall c :: c in after && Live(after[c]) ==> c in before && Live(before[c]) && after[c].people <= before[c].people
  }

  /** A transaction that does not plan only ever shrinks what is live. */
  lemma {:induction false} WritesShrink(s: State, x: Txn, out: Outcome)
    requires WellFormed(x) && SeenIsCurrent(s, x) && !Plans(x.job) && Passes(s, x, out)
    ensures OnlyShrinks(s.rows, RowsAfter(s, x, out))
  {
  }

  /** Only the transaction's own campaign changes. */
  lemma {:induction false} OthersUntouched(s: State, x: Txn, out: Outcome, c: Id)
    requires OnCampaign(x.job) ==> x.seen.Some?
    requires OnCampaign(x.job) ==> c != x.job.campaign
    ensures Lookup(RowsAfter(s, x, out), c) == Lookup(s.rows, c)
  {
    hide NewRow;
  }

  lemma {:induction false} PassesHasSeen(s: State, x: Txn, out: Outcome)
    requires WellFormed(x) && Passes(s, x, out)
    ensures OnCampaign(x.job) ==> x.seen.Some?
  {
  }

  /** Others stay informed while a transaction commits: the locks keep away whoever could surprise them. */
  lemma {:induction false} CommitKeepsOthersInformed(s: State, u: Id, out: Outcome, t: Id)
    requires Inv(s) && Can(s, Commit(u, out)) && t in s.txns && t != u
    ensures Informed(Do(s, Commit(u, out)), s.txns[t])
  {
    hide NewRow, Passes, Consistent, Exclusive, Released;
    var x, y := s.txns[t], s.txns[u];
    assert Informed(s, x) && Informed(s, y);
    PassesHasSeen(s, y, out);
    if Ready(x) {
      if OnCampaign(x.job) {
        if OnCampaign(y.job) && y.job.campaign == x.job.campaign {
          ReadyExclude(s, t, u, CampaignRow(x.job.campaign));
        }
        OthersUntouched(s, y, out, x.job.campaign);
      }
      if Plans(x.job) {
        if Plans(y.job) {
          ReadyExclude(s, t, u, Publication);
        }
        WritesShrink(s, y, out);
      }
      if y.job.Block? && Account(y.job.account) in x.locks {
        ReadyExclude(s, t, u, Account(y.job.account));
      }
    }
  }

  /** A plan keeps only people no other live campaign has. */
  lemma {:induction false} PlansStayExclusive(s: State, x: Txn, out: Outcome)
    requires Informed(s, x) && Plans(x.job) && Passes(s, x, out) && Exclusive(s.rows)
    ensures Exclusive(RowsAfter(s, x, out))
  {
  }

  lemma {:induction false} ShrinkingStaysExclusive(before: Rows, after: Rows)
    requires Exclusive(before) && OnlyShrinks(before, after)
    ensures Exclusive(after)
  {
  }

  lemma {:induction false} CommitKeeps(s: State, u: Id, out: Outcome)
    requires Inv(s) && Can(s, Commit(u, out))
    ensures Inv(Do(s, Commit(u, out)))
  {
    hide NewRow, Passes, Consistent, Exclusive, Released, Informed, WellFormed, RowsAfter;
    var x, after := s.txns[u], Do(s, Commit(u, out));
    assert Informed(s, x);
    ClosingKeeps(ClaimsOf(s), s.table, u);
    assert ClaimsOf(after) == ClaimsOf(s) - {u};
    forall t | t in after.txns
      ensures Informed(after, after.txns[t])
    {
      CommitKeepsOthersInformed(s, u, out, t);
    }
    CommitStaysExclusive(s, x, out);
  }

  lemma {:induction false} CommitStaysExclusive(s: State, x: Txn, out: Outcome)
    requires Informed(s, x) && Passes(s, x, out) && Exclusive(s.rows)
    ensures OnCampaign(x.job) ==> x.seen.Some?
    ensures Exclusive(RowsAfter(s, x, out))
  {
    hide NewRow, Exclusive, Passes, RowsAfter;
    PassesHasSeen(s, x, out);
    if Plans(x.job) {
      PlansStayExclusive(s, x, out);
    } else {
      WritesShrink(s, x, out);
      ShrinkingStaysExclusive(s.rows, RowsAfter(s, x, out));
    }
  }

  // Beginning, locking, reading and failing keep the invariant too.

  lemma {:induction false} NewInOrder(s: State, job: Job)
    ensures InOrder(LocksFor(s, job))
  {
    LockListInOrder(LockedAccounts(s, job), Publishes(job), if OnCampaign(job) then Some(job.campaign) else None);
  }

  /** Being informed depends on the rows and the blocked accounts alone. */
  lemma {:induction false} StaysInformed(s: State, after: State, x: Txn)
    requires Informed(s, x) && after.rows == s.rows && after.blocked == s.blocked && after.company == s.company
    ensures Informed(after, x)
  {
    hide WellFormed;
  }

  lemma {:induction false} OthersStayInformed(s: State, after: State, t: Id)
    requires Inv(s) && after.rows == s.rows && after.blocked == s.blocked && after.company == s.company
    requires t in after.txns ==> Informed(after, after.txns[t])
    requires forall u :: u in after.txns && u != t ==> u in s.txns && after.txns[u] == s.txns[u]
    ensures forall u :: u in after.txns ==> Informed(after, after.txns[u])
  {
    hide Consistent, Exclusive, Informed;
    forall u | u in after.txns
      ensures Informed(after, after.txns[u])
    {
      if u != t {
        StaysInformed(s, after, s.txns[u]);
      }
    }
  }

  lemma {:induction false} BeginKeeps(s: State, t: Id, job: Job)
    requires Inv(s) && Can(s, Begin(t, job))
    ensures Inv(Do(s, Begin(t, job)))
  {
    hide Consistent, Exclusive, LocksFor, Informed;
    var after := Do(s, Begin(t, job));
    NewIsInformed(s, job);
    StaysInformed(s, after, after.txns[t]);
    OthersStayInformed(s, after, t);
    NewInOrder(s, job);
    OpeningKeeps(ClaimsOf(s), s.table, t, LocksFor(s, job));
    assert ClaimsOf(after) == ClaimsOf(s)[t := Claim(LocksFor(s, job), 0)];
  }

  lemma {:induction false} TakeKeeps(s: State, t: Id)
    requires Inv(s) && Can(s, Take(t))
    ensures Inv(Do(s, Take(t)))
  {
    hide Consistent, Exclusive, Informed, LocksFor, Passes, RowsAfter, HeldPeople;
    var after := Do(s, Take(t));
    TakerInOrder(s, t);
    TakerIsInformed(s, after, s.txns[t], after.txns[t]);
    OthersStayInformed(s, after, t);
    TakingKeeps(ClaimsOf(s), s.table, t);
    assert ClaimsOf(after) == ClaimsOf(s)[t := Claim(s.txns[t].locks, s.txns[t].got + 1)];
  }

  lemma {:induction false} TakerInOrder(s: State, t: Id)
    requires Inv(s) && Can(s, Take(t))
    ensures CanGoOn(ClaimsOf(s), s.table, t)
  {
    hide Consistent, Exclusive, Informed;
  }

  /** Whoever still takes locks has read nothing yet. */
  lemma {:induction false} TakerIsInformed(s: State, after: State, x: Txn, y: Txn)
    requires Informed(s, x) && x.got < |x.locks| && y == x.(got := x.got + 1) && after.company == s.company
    ensures Informed(after, y)
  {
  }

  lemma {:induction false} AbortKeeps(s: State, t: Id)
    requires Inv(s) && Can(s, Abort(t))
    ensures Inv(Do(s, Abort(t)))
  {
    hide Consistent, Exclusive, Informed, Released;
    var after := Do(s, Abort(t));
    OthersStayInformed(s, after, t);
    ClosingKeeps(ClaimsOf(s), s.table, t);
    assert ClaimsOf(after) == ClaimsOf(s) - {t};
  }

  /** A fresh read is current, and covers whoever is live now. */
  lemma {:induction false} ReaderIsInformed(s: State, a: Step)
    requires Can(s, a) && (a.ReadRow? || a.ReadTaken? || a.ReadBlocked?) && Informed(s, s.txns[a.t])
    ensures Informed(s, Do(s, a).txns[a.t])
  {
  }

  lemma {:induction false} ReadKeeps(s: State, a: Step)
    requires Inv(s) && Can(s, a) && (a.ReadRow? || a.ReadTaken? || a.ReadBlocked?)
    ensures Inv(Do(s, a))
  {
    hide Consistent, Exclusive, Informed, HeldPeople, LocksFor, Passes, RowsAfter;
    var after := Do(s, a);
    ReaderIsInformed(s, a);
    StaysInformed(s, after, after.txns[a.t]);
    OthersStayInformed(s, after, a.t);
    assert ClaimsOf(after) == ClaimsOf(s);
  }

  lemma {:induction false} StepKeeps(s: State, a: Step)
    requires Inv(s) && Can(s, a)
    ensures Inv(Do(s, a))
  {
    hide Inv, Can, Do;
    match a {
      case Begin(t, job) => BeginKeeps(s, t, job);
      case Take(t) => TakeKeeps(s, t);
      case Commit(t, out) => CommitKeeps(s, t, out);
      case Abort(t) => AbortKeeps(s, t);
      case _ => ReadKeeps(s, a);
    }
  }

  /**
   * In every interleaving of any number of transactions, no person is ever in two campaigns that are
   * scheduled, active or paused.
   */
  lemma {:induction false} NeverInTwoCampaigns(s: State, run: seq<Step>)
    requires Quiet(s) && CanRun(s, run)
    ensures Inv(After(s, run)) && Exclusive(After(s, run).rows)
  {
    hide Can, Do, Quiet, Exclusive;
    if run == [] {
      QuietIsFine(s);
    } else {
      NeverInTwoCampaigns(s, run[..|run| - 1]);
      StepKeeps(After(s, run[..|run| - 1]), run[|run| - 1]);
    }
  }

  // ---------------------------------------------------------------- nobody waits for ever

  /** In every interleaving, no transaction waits, through others, for itself. */
  lemma {:induction false} NeverDeadlocked(s: State, run: seq<Step>, path: seq<Id>)
    requires Quiet(s) && CanRun(s, run) && |path| >= 2
    requires Chain(ClaimsOf(After(s, run)), After(s, run).table, path)
    ensures path[0] != path[|path| - 1]
  {
    hide Quiet, CanRun, After, Consistent, Exclusive, Chain;
    NeverInTwoCampaigns(s, run);
    NoDeadlock(ClaimsOf(After(s, run)), After(s, run).table, path);
  }

  /** While any transaction is open, some open transaction has all its locks or can take its next one. */
  lemma {:induction false} SomeoneAlwaysGoesOn(s: State, run: seq<Step>)
    requires Quiet(s) && CanRun(s, run) && After(s, run).txns != map[]
    ensures exists u :: u in After(s, run).txns && (Ready(After(s, run).txns[u]) || Can(After(s, run), Take(u)))
  {
    hide Quiet, CanRun, After, Exclusive, Informed;
    NeverInTwoCampaigns(s, run);
    var now := After(s, run);
    var t :| t in now.txns;
    var u := SomeoneCanGoOn(ClaimsOf(now), now.table, t);
    assert ClaimsOf(now)[u].got <= |ClaimsOf(now)[u].locks|;
    assert u in now.txns && (Ready(now.txns[u]) || Can(now, Take(u)));
  }

  // ---------------------------------------------------------------- checks made under the locks still hold at the write

  /** Whatever a transaction read of its campaign is what the campaign is when it commits. */
  lemma {:induction false} WritesWhatItRead(s: State, run: seq<Step>, t: Id, out: Outcome)
    requires Quiet(s) && CanRun(s, run) && Can(After(s, run), Commit(t, out))
    ensures var now := After(s, run); var x := now.txns[t];
      OnCampaign(x.job) ==> x.seen == Some(Lookup(now.rows, x.job.campaign))
  {
    hide Quiet, CanRun, After, Consistent, Exclusive, Passes, TakenCovers, BarredCovers, NamedAreLocked;
    NeverInTwoCampaigns(s, run);
    var now := After(s, run);
    assert Informed(now, now.txns[t]);
    PassesHasSeen(now, now.txns[t], out);
  }

  /** A joining FO only adds: the campaign keeps its status and everyone in it, and no other campaign changes. */
  lemma {:induction false} AddFoOnlyAdds(s: State, run: seq<Step>, t: Id, out: Outcome)
    requires Quiet(s) && CanRun(s, run) && Can(After(s, run), Commit(t, out)) && After(s, run).txns[t].job.AddFo?
    ensures var now := After(s, run); var c := now.txns[t].job.campaign; var after := Do(now, Commit(t, out)).rows;
      && c in now.rows && c in after && now.rows[c].status == Active
      && out.Kept? && now.rows[c].people !! out.people && after[c] == now.rows[c].(people := now.rows[c].people + out.people, request := now.rows[c].request + out.people)
      && forall e :: e != c ==> Lookup(after, e) == Lookup(now.rows, e)
  {
    hide Quiet, CanRun, After, Consistent, Exclusive, Inv;
    WritesWhatItRead(s, run, t, out);
  }

  // ---------------------------------------------------------------- what each commit does to its campaign

  /** The campaign of an open transaction, before and after it commits; None where there is none. */
  ghost function Before(s: State, t: Id): Option<Row>
    requires t in s.txns && OnCampaign(s.txns[t].job)
  {
    Lookup(s.rows, s.txns[t].job.campaign)
  }

  ghost function Behind(s: State, t: Id, out: Outcome): Option<Row>
    requires Can(s, Commit(t, out)) && OnCampaign(s.txns[t].job)
  {
    Lookup(Do(s, Commit(t, out)).rows, s.txns[t].job.campaign)
  }

  /** A reachable state in which transaction `t` is about to commit. */
  ghost predicate Commits(s: State, run: seq<Step>, t: Id, out: Outcome) {
    Quiet(s) && CanRun(s, run) && Can(After(s, run), Commit(t, out))
  }

  /**
   * A re-plan asks for whom the campaign asked for, with those added and without those dropped; it
   * plans some of them or, withdrawn, sends all of them back for review. Nobody dropped is left in
   * it, everybody added and not dropped is asked for, and nobody else comes in.
   */
  lemma {:induction false} ReplanTakesOut(s: State, run: seq<Step>, t: Id, out: Outcome)
    requires Commits(s, run, t, out) && After(s, run).txns[t].job.Replan?
    ensures var now := After(s, run); var j, b, a := now.txns[t].job, Before(now, t), Behind(now, t, out);
      && b.Some? && b.value.status == Scheduled && a.Some?
      && (forall p :: p in a.value.request <==> (p in b.value.request || p in j.add) && p !in j.drop)
      && a.value.people <= a.value.request && a.value.people !! j.drop && a.value.request !! j.drop
      && (if out.Kept? then a.value.status == Scheduled && a.value.people == out.people
          else a.value.status == (if b.value.followup then PendingApproval else Draft) && a.value.people == a.value.request)
  {
    hide Quiet, CanRun, After, Consistent, Exclusive;
    WritesWhatItRead(s, run, t, out);
  }

  /** People removed are gone from the campaign and from its request, and nobody else. */
  lemma {:induction false} RemovedAreGone(s: State, run: seq<Step>, t: Id, out: Outcome)
    requires Commits(s, run, t, out) && After(s, run).txns[t].job.RemovePeople?
    ensures var now := After(s, run); var j, b, a := now.txns[t].job, Before(now, t), Behind(now, t, out);
      && b.Some? && a.Some? && a.value.status == b.value.status && b.value.status in {Draft, PendingApproval}
      && (forall p :: p in a.value.people <==> p in b.value.people && p !in j.drop)
      && (forall p :: p in a.value.request <==> p in b.value.request && p !in j.drop)
  {
    hide Quiet, CanRun, After, Consistent, Exclusive;
    WritesWhatItRead(s, run, t, out);
  }

  /** People added are in the campaign and in its request, beside everyone who was; it is no follow-up. */
  lemma {:induction false} AddedAreIn(s: State, run: seq<Step>, t: Id, out: Outcome)
    requires Commits(s, run, t, out) && After(s, run).txns[t].job.AddPeople?
    ensures var now := After(s, run); var j, b, a := now.txns[t].job, Before(now, t), Behind(now, t, out);
      && b.Some? && a.Some? && a.value.status == b.value.status && b.value.status in {Draft, PendingApproval} && !b.value.followup
      && (forall p :: p in a.value.people <==> p in b.value.people || p in j.accepted)
      && (forall p :: p in a.value.request <==> p in b.value.request || p in j.accepted)
  {
    hide Quiet, CanRun, After, Consistent, Exclusive;
    WritesWhatItRead(s, run, t, out);
  }

  /** What is published is what was reviewed, out of what was asked for; the request is kept whole. */
  lemma {:induction false} PublishedIsReviewed(s: State, run: seq<Step>, t: Id, out: Outcome)
    requires Commits(s, run, t, out) && After(s, run).txns[t].job.Publish?
    ensures var now := After(s, run); var j, b, a := now.txns[t].job, Before(now, t), Behind(now, t, out);
      && (if j.isNew then b.None? else b.Some? && b.value.status in {Draft, Scheduled, PendingApproval} && !b.value.started)
      && a.Some? && a.value.status == Scheduled
      && a.value.people == j.reviewed && j.reviewed <= j.ask && a.value.request == j.ask
  {
    hide Quiet, CanRun, After, Consistent, Exclusive;
    WritesWhatItRead(s, run, t, out);
  }

  /** A saved draft holds whom it asks for; a follow-up's, only some of them, and it waits for approval. */
  lemma {:induction false} SavedIsAsked(s: State, run: seq<Step>, t: Id, out: Outcome)
    requires Commits(s, run, t, out) && After(s, run).txns[t].job.SaveDraft?
    ensures var now := After(s, run); var j, b, a := now.txns[t].job, Before(now, t), Behind(now, t, out);
      && a.Some? && a.value.request == j.people && a.value.people <= j.people
      && (if b.Some? && b.value.followup then a.value.status == PendingApproval else a.value.status == Draft && a.value.people == j.people)
      && (b.Some? ==> b.value.status in {Draft, Scheduled, PendingApproval} && !b.value.started)
  {
    hide Quiet, CanRun, After, Consistent, Exclusive;
    WritesWhatItRead(s, run, t, out);
  }

  /** Whom a job may bring into its campaign. */
  function Brings(j: Job): People {
    match j
    case Publish(_, _, ask, _, _) => ask
    case Replan(_, add, _) => add
    case AddFo(_, ask) => ask
    case SaveDraft(_, _, people) => people
    case AddPeople(_, accepted) => accepted
    case _ => {}
  }

  /** This person is neither in the campaign nor asked for by it. */
  predicate IsOut(rows: Rows, c: Id, p: Id) {
    c in rows ==> p !in rows[c].people && p !in rows[c].request
  }

  /** Nobody enters a campaign unless a transaction brings them. */
  lemma {:induction false} NobodyEntersUnasked(s: State, t: Id, out: Outcome, c: Id, p: Id)
    requires Inv(s) && Can(s, Commit(t, out)) && IsOut(s.rows, c, p)
    requires !Bringing(s, Commit(t, out), c, p)
    ensures IsOut(Do(s, Commit(t, out)).rows, c, p)
  {
    hide Consistent, Exclusive, TakenCovers, BarredCovers, NamedAreLocked;
    var x := s.txns[t];
    assert Informed(s, x);
    PassesHasSeen(s, x, out);
  }

  /** This step commits a transaction that brings `p` into campaign `c`. */
  predicate Bringing(s: State, a: Step, c: Id, p: Id) {
    a.Commit? && a.t in s.txns && var j := s.txns[a.t].job; OnCampaign(j) && j.campaign == c && p in Brings(j)
  }

  /** No transaction that brings `p` into campaign `c` commits in this run. */
  ghost predicate NotBrought(s: State, run: seq<Step>, c: Id, p: Id)
    requires CanRun(s, run)
    decreases |run|
  {
    run != [] ==>
      && NotBrought(s, run[..|run| - 1], c, p)
      && !Bringing(After(s, run[..|run| - 1]), run[|run| - 1], c, p)
  }

  lemma {:induction false} StaysOut(s: State, run: seq<Step>, c: Id, p: Id)
    requires Inv(s) && IsOut(s.rows, c, p) && CanRun(s, run) && NotBrought(s, run, c, p)
    ensures IsOut(After(s, run).rows, c, p)
    decreases |run|
  {
    hide Inv, IsOut;
    if run != [] {
      var before, last := run[..|run| - 1], run[|run| - 1];
      StaysOut(s, before, c, p);
      RunKeeps(s, before);
      var now := After(s, before);
      if last.Commit? {
        NobodyEntersUnasked(now, last.t, last.out, c, p);
      } else {
        OnlyCommitsWrite(now, last, c, p);
      }
    }
  }

  lemma {:induction false} OnlyCommitsWrite(s: State, a: Step, c: Id, p: Id)
    requires Can(s, a) && !a.Commit? && IsOut(s.rows, c, p)
    ensures IsOut(Do(s, a).rows, c, p)
  {
    hide LocksFor, HeldPeople;
  }

  /**
   * Whoever is taken out of a campaign, by removing them or by a re-plan that drops them, stays out
   * of it and of what it asks for, through any run in which nobody brings them back.
   */
  lemma {:induction false} TakenOutStaysOut(s: State, run: seq<Step>, t: Id, out: Outcome, more: seq<Step>, p: Id)
    requires Commits(s, run, t, out) && (After(s, run).txns[t].job.Replan? || After(s, run).txns[t].job.RemovePeople?)
    requires p in After(s, run).txns[t].job.drop
    requires var next := Do(After(s, run), Commit(t, out));
      CanRun(next, more) && NotBrought(next, more, After(s, run).txns[t].job.campaign, p)
    ensures IsOut(After(Do(After(s, run), Commit(t, out)), more).rows, After(s, run).txns[t].job.campaign, p)
  {
    hide CanRun, After, Do, Inv, NotBrought, Passes;
    NeverInTwoCampaigns(s, run);
    var now := After(s, run);
    StepKeeps(now, Commit(t, out));
    var next := Do(now, Commit(t, out));
    DroppedAreOut(s, run, t, out, p);
    StaysOut(next, more, now.txns[t].job.campaign, p);
  }

  lemma {:induction false} DroppedAreOut(s: State, run: seq<Step>, t: Id, out: Outcome, p: Id)
    requires Commits(s, run, t, out) && (After(s, run).txns[t].job.Replan? || After(s, run).txns[t].job.RemovePeople?)
    requires p in After(s, run).txns[t].job.drop
    ensures IsOut(Do(After(s, run), Commit(t, out)).rows, After(s, run).txns[t].job.campaign, p)
  {
    hide Quiet, CanRun, After, Do, Passes;
    if After(s, run).txns[t].job.Replan? {
      ReplanTakesOut(s, run, t, out);
    } else {
      RemovedAreGone(s, run, t, out);
    }
  }

  /**
   * How campaigns live: only publishing brings one alive, only a launch starts one, a stopped one
   * never moves again, one that has started never goes back, and changing its status or launching it
   * leaves its people alone.
   */
  lemma {:induction false} LifeCycle(s: State, run: seq<Step>, t: Id, out: Outcome)
    requires Commits(s, run, t, out) && OnCampaign(After(s, run).txns[t].job)
    ensures var now := After(s, run); var j, b, a := now.txns[t].job, Before(now, t), Behind(now, t, out);
      && (a.None? <==> j.Delete? || (b.None? && a.None?))
      && (a.Some? && Live(a.value) && !(b.Some? && Live(b.value)) ==> j.Publish?)
      && (a.Some? && a.value.started && !(b.Some? && b.value.started) ==> j.Launch? && b.Some? && b.value.status == Scheduled && a.value.status == Active)
      && (b.Some? && a.Some? && b.value.status == Stopped ==> a == b)
      && (b.Some? && a.Some? && b.value.started && b.value.status in {Active, Paused} ==> a.value.started && a.value.status in {Active, Paused, Stopped})
      && ((j.Launch? || j.ChangeStatus?) ==> b.Some? && a.Some? && a.value.people == b.value.people && a.value.request == b.value.request)
      && (j.ChangeStatus? ==> a.value.status == if j.to == Active && !b.value.started then Scheduled else j.to)
  {
    hide Quiet, CanRun, After, Consistent, Exclusive;
    WritesWhatItRead(s, run, t, out);
  }

  /** Whether a job concerns this person, as its campaign stands before it has any lock. */
  predicate Concerns(s: State, j: Job, p: Id) {
    match j
    case Replan(c, add, drop) => c in s.rows && (p in s.rows[c].request || p in add) && p !in drop
    case Launch(c) => c in s.rows && p in s.rows[c].people
    case Publish(_, _, _, checked, _) => p in checked
    case AddFo(_, ask) => p in ask
    case _ => false
  }

  /**
   * The accounts a transaction on a campaign locks are those of the people it concerns when it begins:
   * for a re-plan whoever the campaign will ask for, for a launch whoever is in it.
   */
  lemma {:induction false} LocksWhomItConcerns(s: State, t: Id, job: Job, a: Id)
    requires Can(s, Begin(t, job)) && OnCampaign(job)
    ensures Account(a) in Do(s, Begin(t, job)).txns[t].locks <==> exists p :: Concerns(s, job, p) && p in s.company && s.company[p] == a
  {
    LockListHas(LockedAccounts(s, job), Publishes(job), Some(job.campaign), a);
    assert forall p :: p in LookedAt(s, job) <==> Concerns(s, job, p);
  }

  // ---------------------------------------------------------------- blocked accounts

  /** Everyone whose account the transaction locked is at an account not blocked when the plan is written. */
  lemma {:induction false} LockedAreNotBlocked(s: State, run: seq<Step>, t: Id, out: Outcome, p: Id)
    requires Quiet(s) && CanRun(s, run) && Can(After(s, run), Commit(t, out))
    requires var now := After(s, run); Plans(now.txns[t].job) && out.Kept? && p in out.people && p in now.company
    ensures var now := After(s, run); var x := now.txns[t];
      && (Account(now.company[p]) in x.locks ==> now.company[p] !in now.blocked)
      && (p in Named(x.job) ==> now.company[p] !in now.blocked)
      && (x.job.AddFo? ==> now.company[p] !in now.blocked)
  {
    hide Quiet, CanRun, After, Consistent, Exclusive, TakenCovers, SeenIsCurrent, WellFormed;
    NeverInTwoCampaigns(s, run);
    var now := After(s, run);
    assert Informed(now, now.txns[t]);
  }

  /**
   * And only those: whenever a plan about to be written holds someone whose account nobody has
   * locked, an administrator can block that account first and the plan is written all the same.
   */
  lemma {:induction false} UnlockedCanBeBlocked(s: State, t: Id, out: Outcome, p: Id, u: Id)
    requires Inv(s) && Can(s, Commit(t, out)) && Plans(s.txns[t].job) && out.Kept? && p in out.people && p in s.company
    requires Account(s.company[p]) !in s.table && s.company[p] !in s.blocked && u !in s.txns
    ensures var a := s.company[p]; var run := [Begin(u, Block(a)), Take(u), Commit(u, Plain)];
      && CanRun(s, run)
      && a in After(s, run).blocked && Can(After(s, run), Commit(t, out))
      && After(s, run).rows == s.rows && After(s, run).txns == s.txns
  {
    hide Exclusive, Informed, Consistent, After, CanRun, PlanPasses;
    BlockRuns(s, u, Block(s.company[p]));
    PassesAnyway(s, s.(blocked := s.blocked + {s.company[p]}), s.txns[t], out);
  }

  /** Nothing stands in the way of this change to one account's block. */
  predicate CanSwitch(s: State, j: Job) {
    match j
    case Block(a) => a !in s.blocked && Account(a) !in s.table
    case Unblock(a) => a in s.blocked && Account(a) !in s.table
    case _ => false
  }

  lemma {:induction false} BlockRuns(s: State, u: Id, j: Job)
    requires Inv(s) && CanSwitch(s, j) && u !in s.txns
    ensures var run := [Begin(u, j), Take(u), Commit(u, Plain)];
      CanRun(s, run) && After(s, run) == s.(blocked := BlockedAfter(s, j))
  {
    hide Inv, Exclusive, Informed, Consistent, After, CanRun, LocksFor;
    var a := j.account;
    BlockLocks(s, j);
    EmptyRun(s);
    ReleasedAgain(s, u, Account(a));
    var x := Txn(j, [Account(a)], 0, None, None, None);
    var b, k, w := Begin(u, j), Take(u), Commit(u, Plain);
    var s1 := s.(txns := s.txns[u := x]);
    RunsOn(s, [], b);
    assert [] + [b] == [b];
    var s2 := s1.(table := s.table[Account(a) := u], txns := s1.txns[u := x.(got := 1)]);
    RunsOn(s, [b], k);
    assert [b] + [k] == [b, k];
    assert Do(s1, k) == s2;
    RunsOn(s, [b, k], w);
    assert [b, k] + [w] == [b, k, w];
    assert s2.txns - {u} == s.txns;
  }

  lemma {:induction false} EmptyRun(s: State)
    ensures CanRun(s, []) && After(s, []) == s
  {
  }

  lemma {:induction false} ReleasedAgain(s: State, u: Id, l: Lock)
    requires Inv(s) && u !in s.txns && l !in s.table
    ensures Released(s.table[l := u], u) == s.table
  {
    hide Informed, Exclusive;
  }

  lemma {:induction false} RunsOn(s: State, run: seq<Step>, a: Step)
    requires CanRun(s, run) && Can(After(s, run), a)
    ensures CanRun(s, run + [a]) && After(s, run + [a]) == Do(After(s, run), a)
  {
    hide Can, Do;
    assert (run + [a])[..|run + [a]| - 1] == run;
  }

  lemma {:induction false} BlockLocks(s: State, j: Job)
    requires j.Block? || j.Unblock?
    ensures LocksFor(s, j) == [Account(j.account)]
  {
    hide SortedIds;
    OneOrder(SortedIds({j.account}), [j.account]);
  }

  /** Blocking an account changes nothing a plan already under way looks at. */
  lemma {:induction false} PassesAnyway(s: State, after: State, x: Txn, out: Outcome)
    requires Plans(x.job) && PlanPasses(s, x, out) && after.company == s.company
    ensures PlanPasses(after, x, out)
  {
  }

  // ---------------------------------------------------------------- two runs that show where the limits are

  ghost predicate Reaches(s: State, end: State) {
    exists run :: CanRun(s, run) && After(s, run) == end
  }

  lemma {:induction false} ReachesItself(s: State)
    ensures Reaches(s, s)
  {
    EmptyRun(s);
  }

  lemma {:induction false} ReachesNext(s: State, now: State, a: Step)
    requires Reaches(s, now) && Can(now, a)
    ensures Reaches(s, Do(now, a))
  {
    hide Can, Do;
    var run :| CanRun(s, run) && After(s, run) == now;
    RunsOn(s, run, a);
  }

  lemma {:induction false} ReachesOn(s: State, now: State, run: seq<Step>)
    requires Reaches(s, now) && CanRun(now, run)
    ensures Reaches(s, After(now, run))
  {
    hide Can, Do, Reaches;
    if run != [] {
      ReachesOn(s, now, run[..|run| - 1]);
      ReachesNext(s, After(now, run[..|run| - 1]), run[|run| - 1]);
    }
  }

  lemma {:induction false} ReachesKeeps(s: State, now: State)
    requires Inv(s) && Reaches(s, now)
    ensures Inv(now)
  {
    hide Inv, Can, Do;
    var run :| CanRun(s, run) && After(s, run) == now;
    RunKeeps(s, run);
  }

  lemma {:induction false} RunKeeps(s: State, run: seq<Step>)
    requires Inv(s) && CanRun(s, run)
    ensures Inv(After(s, run))
  {
    hide Inv, Can, Do;
    if run != [] {
      RunKeeps(s, run[..|run| - 1]);
      StepKeeps(After(s, run[..|run| - 1]), run[|run| - 1]);
    }
  }

  /** Reads: a transaction holding all its locks notes its campaign, who is taken and what is blocked. */
  lemma {:induction false} ReadsAll(s: State, now: State, t: Id, x: Txn)
    requires Reaches(s, now) && t in now.txns && now.txns[t] == x && Ready(x) && OnCampaign(x.job) && Checks(x.job)
    ensures Reaches(s, now.(txns := now.txns[t := x.(seen := Some(Lookup(now.rows, x.job.campaign)), taken := Some(HeldPeople(now.rows, x.job)), barred := Some(now.blocked))]))
  {
    hide Reaches, HeldPeople, Passes, RowsAfter, LocksFor;
    var x1 := x.(seen := Some(Lookup(now.rows, x.job.campaign)));
    ReadsOne(s, now, t, ReadRow(t), x1);
    var s1 := now.(txns := now.txns[t := x1]);
    var x2 := x1.(taken := Some(HeldPeople(now.rows, x.job)));
    assert HeldPeople(now.rows, x.job) + {} == HeldPeople(now.rows, x.job);
    ReadsOne(s, s1, t, ReadTaken(t, {}), x2);
    var s2 := s1.(txns := s1.txns[t := x2]);
    var x3 := x2.(barred := Some(now.blocked));
    ReadsOne(s, s2, t, ReadBlocked(t), x3);
    assert s2.txns[t := x3] == now.txns[t := x3];
  }

  lemma {:induction false} ReadsOne(s: State, now: State, t: Id, a: Step, y: Txn)
    requires Reaches(s, now) && Can(now, a) && Do(now, a) == now.(txns := now.txns[t := y])
    ensures Reaches(s, now.(txns := now.txns[t := y]))
  {
    hide Reaches, Can, Do;
    ReachesNext(s, now, a);
  }

  lemma {:induction false} NoAccountLocks(publication: bool, c: Id)
    ensures LockList({}, publication, Some(c)) == if publication then [Publication, CampaignRow(c)] else [CampaignRow(c)]
  {
    hide SortedIds;
    OneOrder(SortedIds({}), []);
  }

  /** A transaction on a campaign that locks no account and has read nothing, with the first `got` of its locks. */
  function Holder(job: Job, got: nat): Txn
    requires OnCampaign(job)
  {
    Txn(job, if Publishes(job) then [Publication, CampaignRow(job.campaign)] else [CampaignRow(job.campaign)], got, None, None, None)
  }

  function LocksOf(job: Job): nat {
    if Publishes(job) then 2 else 1
  }

  /** Beginning a job whose look finds nobody. */
  lemma {:induction false} Begins(s: State, now: State, t: Id, job: Job)
    requires Reaches(s, now) && Can(now, Begin(t, job)) && OnCampaign(job) && LockedAccounts(now, job) == {}
    ensures Reaches(s, now.(txns := now.txns[t := Holder(job, 0)]))
  {
    hide Reaches, LockList, LookedAt;
    NoAccountLocks(Publishes(job), job.campaign);
    ReachesNext(s, now, Begin(t, job));
  }

  /** The table once `t` has taken all the locks of `job`. */
  function Locked(table: LockTable, t: Id, job: Job): LockTable
    requires OnCampaign(job)
  {
    (if Publishes(job) then table[Publication := t] else table)[CampaignRow(job.campaign) := t]
  }

  /** And taking its locks, when they are free. */
  lemma {:induction false} LockUp(s: State, now: State, t: Id, job: Job)
    requires OnCampaign(job) && Reaches(s, now) && t in now.txns && now.txns[t] == Holder(job, 0)
    requires CampaignRow(job.campaign) !in now.table && (Publishes(job) ==> Publication !in now.table)
    ensures Reaches(s, now.(table := Locked(now.table, t, job), txns := now.txns[t := Holder(job, LocksOf(job))]))
  {
    hide Reaches;
    ReachesNext(s, now, Take(t));
    var x := Holder(job, 0);
    var s1 := now.(table := now.table[x.locks[0] := t], txns := now.txns[t := Holder(job, 1)]);
    if Publishes(job) {
      ReachesNext(s, s1, Take(t));
      assert s1.txns[t := Holder(job, 2)] == now.txns[t := Holder(job, 2)];
    }
  }

  // ---------------------------------------------------------------- blocking and publishing pass each other

  /** Whom the plan made before the transaction keeps: those asked for who are free and at no blocked account. */
  function FirstPlan(s: State, job: Job): People
    requires job.Publish?
  {
    set p | p in job.ask && p !in HeldPeople(s.rows, job) && !(p in s.company && s.company[p] in s.blocked)
  }

  const DRAFTED := Row(Draft, {}, {}, false, false)

  /** Person 7, of account 3, is asked for; the plan reviewed earlier, before account 3 was blocked, kept them. */
  function Publishing7(): Job {
    Publish(1, false, {7}, {}, {7})
  }

  /** One empty campaign, and account 3, with these blocked. */
  function Accounts(blocked: set<Id>): State {
    State(map[7 := 3], map[1 := DRAFTED], blocked, map[], map[])
  }

  /**
   * Blocking and publishing can pass each other: the plan made before the transaction decides which
   * accounts are locked, while the plan published is the one made inside it. Account 3 is blocked
   * when publishing begins, so the first plan leaves person 7 out and account 3 is not locked. It is
   * unblocked, the transaction reads that nobody is taken or blocked, and it is blocked again before
   * the campaign holding person 7 is scheduled.
   */
  lemma {:induction false} BlockedYetPublished()
    ensures exists s: State, now: State, t: Id, job: Job, out: Outcome ::
      && Quiet(s) && job.Publish? && Can(s, Begin(t, job)) && job.checked == FirstPlan(s, job) && job.reviewed == job.ask
      && Reaches(Do(s, Begin(t, job)), now) && t in now.txns && now.txns[t].job == job && Can(now, Commit(t, out))
      && var after := Do(now, Commit(t, out)).rows;
         exists p :: p in now.company && now.company[p] in now.blocked && 1 in after && after[1].status == Scheduled && p in after[1].people
  {
    hide Reaches, LockList, LocksFor, Can, Do, Inv, FirstPlan, Quiet;
    var s, job := Accounts({3}), Publishing7();
    StartsBlocked();
    var begun := s.(txns := map[0 := Holder(job, 0)]);
    SwitchedOff(begun);
    LocksAndReads(begun);
    var read := Accounts({}).(table := map[Publication := 0, CampaignRow(1) := 0], txns := map[0 := Informed7()]);
    SwitchedOn(begun, read);
    LastWrite(read.(blocked := {3}), Informed7());
  }

  /** The transaction once it has read that nobody is taken and nothing is blocked. */
  function Informed7(): Txn {
    Holder(Publishing7(), 2).(seen := Some(Some(DRAFTED)), taken := Some({}), barred := Some({}))
  }

  lemma {:induction false} LocksAndReads(begun: State)
    requires Reaches(begun, Accounts({}).(txns := map[0 := Holder(Publishing7(), 0)]))
    ensures Reaches(begun, Accounts({}).(table := map[Publication := 0, CampaignRow(1) := 0], txns := map[0 := Informed7()]))
  {
    hide Reaches, LockList, HeldPeople;
    var job := Publishing7();
    var off := Accounts({}).(txns := map[0 := Holder(job, 0)]);
    LockUp(begun, off, 0, job);
    var locked := off.(table := map[Publication := 0, CampaignRow(1) := 0], txns := map[0 := Holder(job, 2)]);
    assert Locked(map[], 0, job) == locked.table && off.txns[0 := Holder(job, 2)] == locked.txns;
    ReadsAll(begun, locked, 0, Holder(job, 2));
    NobodyHeld();
    assert locked.txns[0 := Informed7()] == map[0 := Informed7()];
  }

  /** What publishing looks like when it begins. */
  lemma {:induction false} StartsBlocked()
    ensures var s, job := Accounts({3}), Publishing7();
      && Quiet(s) && Can(s, Begin(0, job)) && job.checked == FirstPlan(s, job)
      && Do(s, Begin(0, job)) == s.(txns := map[0 := Holder(job, 0)]) && Inv(Do(s, Begin(0, job)))
  {
    hide LockList;
    var s, job := Accounts({3}), Publishing7();
    NoAccountLocks(true, 1);
    assert LockedAccounts(s, job) == {};
    QuietIsFine(s);
    BeginKeeps(s, 0, job);
  }

  lemma {:induction false} SwitchedOff(begun: State)
    requires begun == Accounts({3}).(txns := map[0 := Holder(Publishing7(), 0)]) && Inv(begun)
    ensures Reaches(begun, begun.(blocked := {}))
  {
    hide Reaches, Inv, CanRun, After;
    BlockRuns(begun, 1, Unblock(3));
    ReachesItself(begun);
    assert {3} - {3} == {};
    ReachesOn(begun, begun, [Begin(1, Unblock(3)), Take(1), Commit(1, Plain)]);
  }

  lemma {:induction false} SwitchedOn(begun: State, read: State)
    requires Inv(begun) && Reaches(begun, read) && read.blocked == {} && Account(3) !in read.table && 1 !in read.txns
    ensures Reaches(begun, read.(blocked := {3}))
  {
    hide Reaches, Inv, CanRun, After;
    ReachesKeeps(begun, read);
    BlockRuns(read, 1, Block(3));
    assert {} + {3} == {3};
    ReachesOn(begun, read, [Begin(1, Block(3)), Take(1), Commit(1, Plain)]);
  }

  lemma {:induction false} NobodyHeld()
    ensures HeldPeople(map[1 := DRAFTED], Publishing7()) == {}
  {
  }

  lemma {:induction false} LastWrite(last: State, x: Txn)
    requires x == Holder(Publishing7(), 2).(seen := Some(Some(DRAFTED)), taken := Some({}), barred := Some({}))
    requires last.txns == map[0 := x] && last.rows == map[1 := DRAFTED] && last.company == map[7 := 3] && last.blocked == {3}
    ensures Can(last, Commit(0, Kept({7})))
    ensures var after := Do(last, Commit(0, Kept({7}))).rows; 1 in after && after[1].status == Scheduled && 7 in after[1].people
  {
    assert 7 in Allowed(last, x, {7});
  }

  // ---------------------------------------------------------------- campaigns waiting for approval

  predicate Waiting(r: Row) {
    r.status == PendingApproval
  }

  /** No person is in two campaigns that hold their people, waiting ones included. */
  ghost predicate HoldersApart(rows: Rows) {
    forall c, e :: c in rows && e in rows && c != e && Holding(rows[c]) && Holding(rows[e]) ==> rows[c].people !! rows[e].people
  }

  /** Nobody of these is in another campaign that holds its people. */
  ghost predicate HeldByNoOther(rows: Rows, c: Id, people: People) {
    forall e :: e in rows && e != c && Holding(rows[e]) ==> people !! rows[e].people
  }

  /** Nobody of these is in another campaign that waits for approval. */
  ghost predicate WaitNowhereElse(rows: Rows, c: Id, people: People) {
    forall e :: e in rows && e != c && Waiting(rows[e]) ==> people !! rows[e].people
  }

  /** What a commit must meet: whom it leaves waiting nobody else holds, and whom a plan keeps wait nowhere else. */
  ghost predicate LeavesApart(s: State, x: Txn, out: Outcome)
    requires OnCampaign(x.job) ==> x.seen.Some?
  {
    OnCampaign(x.job) ==>
      var c := x.job.campaign; var r := NewRow(x, Lookup(s.rows, c), out);
      && (r.Some? && Waiting(r.value) ==> HeldByNoOther(s.rows, c, r.value.people))
      && (Plans(x.job) && out.Kept? ==> WaitNowhereElse(s.rows, c, out.people))
  }

  /**
   * Campaigns waiting for approval are outside the promise of NeverInTwoCampaigns, and this is how
   * far: while all who hold people are apart, a commit leaves them apart exactly when the people of
   * a campaign it leaves waiting are held by no other at that moment and the people a plan keeps
   * wait in no other.
   */
  lemma {:induction false} WaitingStayApart(s: State, run: seq<Step>, t: Id, out: Outcome)
    requires Quiet(s) && CanRun(s, run) && Can(After(s, run), Commit(t, out)) && HoldersApart(After(s, run).rows)
    ensures var now := After(s, run); var x := now.txns[t];
      && (OnCampaign(x.job) ==> x.seen.Some?)
      && (HoldersApart(Do(now, Commit(t, out)).rows) <==> LeavesApart(now, x, out))
  {
    hide Quiet, CanRun, After, Consistent, Exclusive, Passes, RowsAfter, HoldersApart, LeavesApart, TakenCovers, BarredCovers, NamedAreLocked;
    NeverInTwoCampaigns(s, run);
    var now := After(s, run);
    var x := now.txns[t];
    assert Informed(now, x);
    PassesHasSeen(now, x, out);
    if LeavesApart(now, x, out) {
      CommitLeavesApart(now, x, out);
    }
    if HoldersApart(RowsAfter(now, x, out)) {
      ApartMeans(now, x, out);
    }
  }

  lemma {:induction false} CommitLeavesApart(s: State, x: Txn, out: Outcome)
    requires Informed(s, x) && Passes(s, x, out) && Exclusive(s.rows) && HoldersApart(s.rows)
    requires (OnCampaign(x.job) ==> x.seen.Some?) && LeavesApart(s, x, out)
    ensures HoldersApart(RowsAfter(s, x, out))
  {
    hide Passes, NewRow, BarredCovers, NamedAreLocked, WellFormed, TakenCovers;
    if OnCampaign(x.job) {
      var c, after := x.job.campaign, RowsAfter(s, x, out);
      forall e | e in after && e != c && c in after && Holding(after[c]) && Holding(after[e])
        ensures after[c].people !! after[e].people
      {
        assert e in s.rows && after[e] == s.rows[e];
        if Live(after[c]) {
          LiveRowIsApart(s, x, out, e);
        }
      }
    }
  }

  /** The row of a live campaign just written shares nobody with any other that holds people. */
  lemma {:induction false} LiveRowIsApart(s: State, x: Txn, out: Outcome, e: Id)
    requires Informed(s, x) && Passes(s, x, out) && Exclusive(s.rows) && HoldersApart(s.rows)
    requires OnCampaign(x.job) && x.seen.Some? && LeavesApart(s, x, out)
    requires var after := RowsAfter(s, x, out); var c := x.job.campaign;
      c in after && Live(after[c]) && e != c && e in s.rows && Holding(s.rows[e])
    ensures RowsAfter(s, x, out)[x.job.campaign].people !! s.rows[e].people
  {
    if Plans(x.job) {
      PlansStayExclusive(s, x, out);
    } else {
      WritesShrink(s, x, out);
    }
  }

  lemma {:induction false} ApartMeans(s: State, x: Txn, out: Outcome)
    requires Informed(s, x) && Passes(s, x, out) && HoldersApart(RowsAfter(s, x, out))
    requires OnCampaign(x.job) ==> x.seen.Some?
    ensures LeavesApart(s, x, out)
  {
    hide Passes, NewRow, BarredCovers, NamedAreLocked, WellFormed, TakenCovers;
    if OnCampaign(x.job) {
      var c, after := x.job.campaign, RowsAfter(s, x, out);
      var r := NewRow(x, Lookup(s.rows, c), out);
      if Plans(x.job) && out.Kept? {
        KeptAreWritten(s, x, out);
      }
      if r.Some? && Holding(r.value) {
        assert c in after && after[c] == r.value;
        forall e | e in s.rows && e != c && Holding(s.rows[e])
          ensures r.value.people !! s.rows[e].people
        {
          assert e in after && after[e] == s.rows[e];
        }
      }
    }
  }

  /** A plan that is kept is written to a live campaign, with everyone it keeps. */
  lemma {:induction false} KeptAreWritten(s: State, x: Txn, out: Outcome)
    requires Informed(s, x) && Passes(s, x, out) && Plans(x.job) && out.Kept? && x.seen.Some?
    ensures var r := NewRow(x, Lookup(s.rows, x.job.campaign), out); r.Some? && Live(r.value) && out.people <= r.value.people
  {
  }

  /** A follow-up waiting for approval that holds nobody yet, and an empty draft. */
  const WAITS := Row(PendingApproval, {}, {}, true, false)

  function Two(): State {
    State(map[], map[1 := WAITS, 2 := DRAFTED], {}, map[], map[])
  }

  /** Person 7 is saved into the follow-up and published in the draft; both were checked and found free. */
  function Saving(): Txn {
    Holder(SaveDraft(1, false, {7}), 1).(seen := Some(Some(WAITS)), taken := Some({}), barred := Some({}))
  }

  function PublishingToo(): Txn {
    Holder(Publish(2, false, {7}, {7}, {7}), 2).(seen := Some(Some(DRAFTED)), taken := Some({}), barred := Some({}))
  }

  lemma {:induction false} BothChecked()
    ensures Reaches(Two(), Two().(table := map[CampaignRow(1) := 0, Publication := 1, CampaignRow(2) := 1], txns := map[0 := Saving(), 1 := PublishingToo()]))
  {
    hide Reaches, LockList, LocksFor, HeldPeople;
    var s, save, publish := Two(), SaveDraft(1, false, {7}), Publish(2, false, {7}, {7}, {7});
    NothingTaken(save);
    NothingTaken(publish);
    ReachesItself(s);
    Begins(s, s, 0, save);
    var s1 := s.(txns := map[0 := Holder(save, 0)]);
    LockUp(s, s1, 0, save);
    var s2 := s.(table := map[CampaignRow(1) := 0], txns := map[0 := Holder(save, 1)]);
    assert s1.txns[0 := Holder(save, 1)] == s2.txns;
    ReadsAll(s, s2, 0, Holder(save, 1));
    var s3 := s2.(txns := map[0 := Saving()]);
    assert s2.txns[0 := Saving()] == s3.txns;
    SecondChecked(s, s3, publish);
  }

  lemma {:induction false} SecondChecked(s: State, now: State, publish: Job)
    requires publish == Publish(2, false, {7}, {7}, {7}) && Reaches(s, now)
    requires now == Two().(table := map[CampaignRow(1) := 0], txns := map[0 := Saving()])
    ensures Reaches(s, now.(table := map[CampaignRow(1) := 0, Publication := 1, CampaignRow(2) := 1], txns := map[0 := Saving(), 1 := PublishingToo()]))
  {
    hide Reaches, LockList, LocksFor, HeldPeople, Saving;
    NothingTaken(publish);
    Begins(s, now, 1, publish);
    var s1 := now.(txns := map[0 := Saving(), 1 := Holder(publish, 0)]);
    assert now.txns[1 := Holder(publish, 0)] == s1.txns;
    LockUp(s, s1, 1, publish);
    var s2 := now.(table := map[CampaignRow(1) := 0, Publication := 1, CampaignRow(2) := 1], txns := map[0 := Saving(), 1 := Holder(publish, 2)]);
    assert s1.txns[1 := Holder(publish, 2)] == s2.txns && Locked(s1.table, 1, publish) == s2.table;
    ReadsAll(s, s2, 1, Holder(publish, 2));
    assert s2.txns[1 := PublishingToo()] == map[0 := Saving(), 1 := PublishingToo()];
  }

  lemma {:induction false} NothingTaken(job: Job)
    requires Checks(job) && !job.AddFo?
    ensures HeldPeople(Two().rows, job) == {} && AccountsOf(map[], {7}) == {}
  {
  }

  /**
   * A run of it: a follow-up's draft is saved on a check made without the publication lock, so a
   * publication that commits in between can take one of its people. Both checks found person 7 free.
   */
  lemma {:induction false} WaitingCanOverlap()
    ensures exists s, now ::
      && Quiet(s) && HoldersApart(s.rows) && Reaches(s, now) && 1 in now.rows && 2 in now.rows
      && Waiting(now.rows[1]) && Live(now.rows[2]) && 7 in now.rows[1].people && 7 in now.rows[2].people
  {
    hide Reaches, LockList, LocksFor, HeldPeople, CanRun, After;
    var s := Two();
    var both := s.(table := map[CampaignRow(1) := 0, Publication := 1, CampaignRow(2) := 1], txns := map[0 := Saving(), 1 := PublishingToo()]);
    BothChecked();
    PublishCommits(both);
    ReachesNext(s, both, Commit(1, Kept({7})));
    var one := Do(both, Commit(1, Kept({7})));
    SaveCommits(one);
    ReachesNext(s, one, Commit(0, Kept({7})));
    assert Quiet(s) && HoldersApart(s.rows);
  }

  lemma {:induction false} PublishCommits(both: State)
    requires 1 in both.txns && both.txns[1] == PublishingToo() && both.company == map[] && both.rows == Two().rows
    ensures Can(both, Commit(1, Kept({7})))
    ensures var after := Do(both, Commit(1, Kept({7})));
      && 2 in after.rows && after.rows[2].status == Scheduled && after.rows[2].people == {7}
      && after.rows == both.rows[2 := after.rows[2]] && after.txns == both.txns - {1} && after.company == both.company
  {
    assert 7 in Allowed(both, PublishingToo(), {7});
  }

  lemma {:induction false} SaveCommits(one: State)
    requires 0 in one.txns && one.txns[0] == Saving() && one.company == map[] && 1 in one.rows && one.rows[1] == WAITS
    ensures Can(one, Commit(0, Kept({7})))
    ensures var after := Do(one, Commit(0, Kept({7})));
      && 1 in after.rows && Waiting(after.rows[1]) && after.rows[1].people == {7}
      && forall e :: e != 1 ==> Lookup(after.rows, e) == Lookup(one.rows, e)
  {
    assert 7 in Allowed(one, Saving(), {7});
  }
}
