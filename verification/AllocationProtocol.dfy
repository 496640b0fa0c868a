/** The allocation protocol as a state machine: database transactions of the workers interleaved
    with every other writer, and the inductive invariant of all its runs. */
module AllocationProtocol {
  import opened Orders
  import opened AllocationTypes
  import opened AllocationPolicy
  import opened AllocationCanonical
  import opened AllocationStore

  // ----- workers and steps -----

  /** What a worker holds in memory between its transactions. */
  datatype Worker =
    | Holding(ticket: Ticket)
    | Waiting4Kernel(ticket: Ticket, request: Request)
    | Accepted(ticket: Ticket, request: Request, decisions: seq<Decision>)
    | Aborting(ticket: Ticket, failure: Failure)

  datatype Sys = Sys(db: Db, workers: map<nat, Worker>)

  /** A worker may be interrupted at any point, by a serialisation failure, a timeout or an error. */
  datatype Step =
    | Submit(scope: nat, ids: seq<nat>, mode: Mode, key: Option<string>, actor: Option<nat>)
    | Cancel(task: nat)
    | Retry(task: nat, retryKey: string, actor: Option<nat>)
    | Pause(scope: nat, paused: bool, expectedRevision: nat)
    | Screen(qualification: Qualification)
    | Edit(edited: Db)
    | Tick(now: nat)
    | TakeWork(worker: nat, scope: nat)
    | Prepare(worker: nat, pin: nat, authorized: bool)
    | Answer(worker: nat, response: Option<Response>, failure: Failure)
    | Conclude(worker: nat, authorized: bool)
    | Interrupt(worker: nat, failure: Failure)
    | Abandon(worker: nat)
    | Crash(worker: nat)

  /** Changes other parts of the platform may make to business rows at any time. Publishing pools may
      bring new scopes. */
  ghost predicate BusinessEdit(a: Db, b: Db) {
    && b == a.(scopes := b.scopes, items := b.items, members := b.members, workflows := b.workflows, attempts := b.attempts,
               closed := b.closed, demands := b.demands, policyRevision := b.policyRevision, changes := b.changes)
    && MembersKept(a.members, b.members) && |a.workflows| <= |b.workflows|
    && AttemptsKept(a.attempts, b.attempts) && ItemsOnlyCancelled(a.items, b.items)
    && |a.changes| <= |b.changes| && b.changes[..|a.changes|] == a.changes
    && ScopesAdded(a.scopes, b.scopes) && EditLogged(a, b) && RowsOk(b)
  }

  /** The triggers on the business tables log a change for every scope whose demands, members or members'
      candidates an edit concerns, and for all scopes when the policy changes. */
  ghost predicate EditLogged(a: Db, b: Db) {
    forall s | 0 <= s < |a.scopes| :: LoggedFor(b.changes, |a.changes|, s) || Untouched(a, b, s)
  }

  predicate LoggedFor(changes: seq<nat>, from: nat, s: nat) { exists k :: from <= k < |changes| && changes[k] == s }

  ghost predicate Untouched(a: Db, b: Db, s: nat) {
    && s < |a.demands| && s < |b.demands| && b.demands[s] == a.demands[s] && b.policyRevision == a.policyRevision
    && forall m | 0 <= m < |b.members| && b.members[m].scope == s ::
         m < |a.members| && b.members[m] == a.members[m] && SameCandidate(a, b, b.members[m].candidate)
  }

  ghost predicate SameCandidate(a: Db, b: Db, c: nat) {
    && c < |a.workflows| && c < |b.workflows| && b.workflows[c] == a.workflows[c]
    && forall i | 0 <= i < |b.attempts| && b.attempts[i].candidate == c :: i < |a.attempts| && b.attempts[i] == a.attempts[i]
  }

  const NEW_SCOPE := Scope(false, 1, 1, 1, 0, None)

  ghost predicate ScopesAdded(a: seq<Scope>, b: seq<Scope>) {
    && |a| <= |b| && b[..|a|] == a
    && forall s | |a| <= s < |b| :: b[s] == NEW_SCOPE
  }

  ghost predicate MembersKept(a: seq<MemberRow>, b: seq<MemberRow>) {
    && |a| <= |b|
    && forall m | 0 <= m < |a| ::
         && b[m] == a[m].(status := b[m].status, revision := b[m].revision, factsCurrent := b[m].factsCurrent)
         && a[m].revision <= b[m].revision
  }

  /** Attempts are never removed, keep their demand target, and new ones have none. */
  ghost predicate AttemptsKept(a: seq<Attempt>, b: seq<Attempt>) {
    && |a| <= |b|
    && (forall i | 0 <= i < |a| ::
          && b[i] == a[i].(status := b[i].status, target := b[i].target)
          && (a[i].target.Some? <==> b[i].target.Some?)
          && (a[i].target.Some? ==> b[i].target.value == a[i].target.value.(dispatched := b[i].target.value.dispatched)))
    && (forall i | |a| <= i < |b| :: b[i].target == None)
  }

  ghost predicate ItemsOnlyCancelled(a: seq<Item>, b: seq<Item>) {
    && |a| == |b|
    && forall i | 0 <= i < |a| :: b[i] == a[i] || (Unsettled(a[i]) && b[i] == a[i].(status := ItemCancelled))
  }

  // ----- the invariant -----

  /** Keys and uniqueness the tables guarantee. */
  ghost predicate RowsOk(db: Db) {
    && |db.demands| == |db.scopes|
    && (forall s | 0 <= s < |db.demands| :: DistinctRows(db.demands[s]))
    && (forall m | 0 <= m < |db.members| :: db.members[m].candidate < |db.workflows|)
    && (forall m, n | 0 <= m < n < |db.members| && ActiveMembership(db.members[m]) && ActiveMembership(db.members[n]) ::
          db.members[m].candidate != db.members[n].candidate)
    && (forall q | 0 <= q < |db.quals| :: db.quals[q].member < |db.members| && DistinctCodes(db.quals[q].tags))
  }

  ghost predicate DistinctRows(rows: seq<DemandRow>) {
    forall i, j | 0 <= i < j < |rows| :: rows[i].demandId != rows[j].demandId
  }

  ghost predicate MembersInScope(db: Db, sid: nat, ids: seq<nat>) {
    forall m | m in ids :: m < |db.members| && db.members[m].scope == sid
  }

  predicate KeyUsed(k: Key, nextToken: nat) { k.TokenKey? ==> k.token < nextToken }

  ghost predicate TaskOk(db: Db, t: Task) {
    && t.scope < |db.scopes|
    && 1 <= |t.members| <= TASK_LIMIT && MembersInScope(db, t.scope, t.members)
    && 1 <= t.generation <= MAX_GENERATION + 1
    && (Live(t) ==> t.generation <= MAX_GENERATION)
    && (Live(t) && t.mode == Execute ==> !db.scopes[t.scope].paused)
    && t.workerToken < db.nextToken && KeyUsed(t.key, db.nextToken)
    && (t.status == TaskRunning ==>
          t.workerToken > 0 && db.scopes[t.scope].leaseToken == t.workerToken && db.scopes[t.scope].leaseUntil.Some?)
  }

  ghost predicate TasksOk(db: Db) {
    && db.nextToken > 0
    && (forall t | 0 <= t < |db.tasks| :: TaskOk(db, db.tasks[t]))
    && (forall t, u | 0 <= t < u < |db.tasks| && db.tasks[t].workerToken == db.tasks[u].workerToken :: db.tasks[t].workerToken == 0)
    && (forall s | 0 <= s < |db.scopes| :: db.scopes[s].leaseToken < db.nextToken)
  }

  /** An item attached to a task is work of that execution for one of its members; it is leased
      exactly while the task runs. */
  ghost predicate ItemOk(db: Db, i: Item) {
    && i.member < |db.members| && i.qualification < |db.quals| && db.quals[i.qualification].member == i.member
    && (i.task.Some? ==> Attached(db.tasks, i))
    && (i.status == ItemLeased ==> i.task.Some? && db.tasks[i.task.value].status == TaskRunning)
    && (i.status == ItemPending && i.task.Some? ==> db.tasks[i.task.value].status != TaskRunning)
  }

  ghost predicate Attached(tasks: seq<Task>, i: Item)
    requires i.task.Some?
  {
    i.task.value < |tasks| && tasks[i.task.value].mode == Execute && i.member in tasks[i.task.value].members
  }

  ghost predicate ItemsOk(db: Db) {
    && (forall i | 0 <= i < |db.items| :: ItemOk(db, db.items[i]))
    && ActiveIsNewest(db.items)
  }

  /** A pending or leased item is the newest of its qualification; so there is at most one. */
  ghost predicate ActiveIsNewest(items: seq<Item>) {
    forall i, j | 0 <= i < j < |items| && Active(items[i]) :: items[j].qualification != items[i].qualification
  }

  ghost predicate SequencesOk(db: Db) {
    && (forall s | 0 <= s < |db.scopes| :: db.scopes[s].nextSequence >= 1)
    && (forall a | 0 <= a < |db.attempts| && db.attempts[a].target.Some? ::
          var g := db.attempts[a].target.value;
          g.scope < |db.scopes| && 1 <= g.sequence < db.scopes[g.scope].nextSequence)
    && (forall a, b | 0 <= a < b < |db.attempts| && db.attempts[a].target.Some? && db.attempts[b].target.Some? ::
          db.attempts[a].target.value.scope == db.attempts[b].target.value.scope ==>
          db.attempts[a].target.value.sequence != db.attempts[b].target.value.sequence)
  }

  ghost predicate TicketOk(db: Db, tk: Ticket) {
    && tk.task < |db.tasks| && 0 < tk.token < db.nextToken && 1 <= tk.generation <= MAX_GENERATION
    && tk.scope == db.tasks[tk.task].scope && tk.mode == db.tasks[tk.task].mode && tk.members == db.tasks[tk.task].members
  }

  /** The task row still carries the ticket's fence. */
  predicate Fenced(db: Db, tk: Ticket) {
    tk.task < |db.tasks| && db.tasks[tk.task].status == TaskRunning && db.tasks[tk.task].workerToken == tk.token
  }

  ghost predicate InSnapshot(m: nat, s: Snapshot) { exists x :: x in s.members && x.memberId == m }

  ghost predicate RequestOk(db: Db, tk: Ticket, q: Request) {
    && q.hash == Canonical(q.snapshot) && WellKeyed(q.snapshot) && 0 <= q.snapshot.at <= db.now
    && (Fenced(db, tk) ==> LeasedCovered(db, tk, q.snapshot))
  }

  /** Every item leased to the ticket's task belongs to a member of the snapshot. */
  ghost predicate LeasedCovered(db: Db, tk: Ticket, s: Snapshot) {
    forall i | 0 <= i < |db.items| && db.items[i].status == ItemLeased && db.items[i].task == Some(tk.task) ::
      InSnapshot(db.items[i].member, s)
  }

  ghost predicate WorkerOk(db: Db, w: Worker) {
    && TicketOk(db, w.ticket)
    && (w.Waiting4Kernel? ==> RequestOk(db, w.ticket, w.request))
    && (w.Accepted? ==> RequestOk(db, w.ticket, w.request) && w.decisions == Plan(w.request.snapshot))
  }

  ghost predicate Inv(s: Sys) {
    && RowsOk(s.db) && TasksOk(s.db) && ItemsOk(s.db) && SequencesOk(s.db)
    && forall w | w in s.workers :: WorkerOk(s.db, s.workers[w])
  }

  // ----- the transition relation -----

  ghost predicate Enabled(s: Sys, step: Step) {
    match step
    case Submit(sid, ids, _, _, _) => sid < |s.db.scopes| && MembersInScope(s.db, sid, ids)
    case Cancel(t) => t < |s.db.tasks| && s.db.tasks[t].scope < |s.db.scopes|
    case Retry(t, _, _) => t < |s.db.tasks| && s.db.tasks[t].scope < |s.db.scopes|
    case Pause(sid, _, _) => sid < |s.db.scopes|
    case Screen(q) => q.member < |s.db.members| && DistinctCodes(q.tags)
    case Edit(b) => BusinessEdit(s.db, b)
    case Tick(now) => s.db.now <= now
    case TakeWork(w, sid) => w !in s.workers && Claimable(s.db, sid)
    case Prepare(w, _, _) => w in s.workers && s.workers[w].Holding?
    case Answer(w, response, _) => w in s.workers && s.workers[w].Waiting4Kernel?
    case Conclude(w, _) => w in s.workers && s.workers[w].Accepted? && s.workers[w].request.snapshot.at >= 0
    case Interrupt(w, _) => w in s.workers && !s.workers[w].Aborting?
    case Abandon(w) => w in s.workers && s.workers[w].Aborting?
    case Crash(w) => w in s.workers
  }

  ghost function Next(s: Sys, step: Step): Sys
    requires Enabled(s, step)
  {
    var db := s.db;
    match step
    case Submit(sid, ids, mode, key, actor) =>
      s.(db := CreateTask(db, sid, ids, mode, if key.Some? then Some(CallerKey(key.value)) else None, actor).0)
    case Cancel(t) => s.(db := CancelTask(db, t))
    case Retry(t, key, actor) => s.(db := RetryTask(db, t, key, actor))
    case Pause(sid, paused, expected) => s.(db := SetPaused(db, sid, paused, expected))
    case Screen(q) => s.(db := SaveQualification(db, q))
    case Edit(b) => s.(db := b)
    case Tick(now) => s.(db := db.(now := now))
    case TakeWork(w, sid) =>
      var (db, tk) := Claim(db, sid);
      if tk.Some? then Sys(db, s.workers[w := Holding(tk.value)]) else Sys(db, s.workers)
    case Prepare(w, pin, authorized) =>
      var tk := s.workers[w].ticket;
      var (db, result) := Process(db, tk, pin, authorized);
      (match result
       case ProcessFailed(f) => Sys(db, s.workers[w := Aborting(tk, f)])
       case NothingEligible => Sys(db, s.workers - {w})
       case Computing(q) => Sys(db, s.workers[w := Waiting4Kernel(tk, q)]))
    case Answer(w, response, failure) =>
      var tk, q := s.workers[w].ticket, s.workers[w].request;
      if response.Some? && Accepts(q, response.value)
      then Sys(RecordPlan(db, tk, q, response.value.decisions, Proposed), s.workers[w := Accepted(tk, q, response.value.decisions)])
      else if response.Some?
      then Sys(RecordPlan(db, tk, q, response.value.decisions, InvalidPlan), s.workers[w := Aborting(tk, OtherFailure)])
      else Sys(db, s.workers[w := Aborting(tk, failure)])
    case Conclude(w, authorized) =>
      var x := s.workers[w];
      var (db, result) := Commit(db, x.ticket, x.request, x.decisions, authorized);
      (match result
       case CommitDone => Sys(db, s.workers - {w})
       case CommitFailed(f) => Sys(db, s.workers[w := Aborting(x.ticket, f)]))
    case Interrupt(w, failure) => s.(workers := s.workers[w := Aborting(s.workers[w].ticket, failure)])
    case Abandon(w) =>
      Sys(FinishFailure(db, s.workers[w].ticket, s.workers[w].failure), s.workers - {w})
    case Crash(w) => s.(workers := s.workers - {w})
  }
}
