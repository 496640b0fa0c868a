/** What fences, generations and terminal statuses guarantee over whole runs. */
module AllocationFencing {
  import opened AllocationTypes
  import opened AllocationPolicy
  import opened AllocationCanonical
  import opened AllocationStore
  import opened AllocationProtocol
  import opened AllocationCommit
  import opened AllocationInvariants
  import opened AllocationSafety

  // ----- how leases and tasks may move -----

  /** A lease is kept as it is, given up, or replaced under a fresh token. */
  ghost predicate LeasesMove(a: Db, b: Db) {
    && a.now <= b.now && a.nextToken <= b.nextToken && |a.scopes| <= |b.scopes|
    && (forall s | 0 <= s < |a.scopes| :: LeaseMoves(a.scopes[s], b.scopes[s], a.nextToken))
    && forall s | |a.scopes| <= s < |b.scopes| :: b.scopes[s].leaseToken == 0 || b.scopes[s].leaseToken >= a.nextToken
  }

  predicate LeaseMoves(a: Scope, b: Scope, token: nat) {
    b.leaseToken == 0 || b.leaseToken >= token || (b.leaseToken == a.leaseToken && b.leaseUntil == a.leaseUntil)
  }

  /** How many more times the task can be claimed. */
  function Credit(tasks: seq<Task>, t: nat): int {
    if t >= |tasks| then MAX_GENERATION
    else
      match tasks[t].status
      case TaskPending => MAX_GENERATION + 1 - tasks[t].generation
      case TaskRunning => MAX_GENERATION - tasks[t].generation
      case _ => 0
  }

  predicate Terminal(a: TaskStatus, b: TaskStatus) {
    && (a == TaskCompleted ==> b == TaskCompleted)
    && (a == TaskCancelled ==> b == TaskCancelled)
    && (a == TaskFailed ==> b == TaskFailed || b == TaskCancelled)
  }

  /** Terminal statuses stay, and every claim of a task is paid for with its credit. */
  ghost predicate TasksMove(a: seq<Task>, b: seq<Task>, granted: Option<nat>) {
    && |a| <= |b|
    && (forall t | 0 <= t < |a| :: Terminal(a[t].status, b[t].status))
    && forall t: nat :: Credit(b, t) + (if granted == Some(t) then 1 else 0) <= Credit(a, t)
  }

  ghost predicate Moves(a: Db, b: Db, granted: Option<nat>) { LeasesMove(a, b) && TasksMove(a.tasks, b.tasks, granted) }

  lemma MovesNot(db: Db)
    ensures Moves(db, db, None)
  {}

  lemma MovesOn(a: Db, b: Db, c: Db, granted: Option<nat>)
    requires Moves(a, b, None) && Moves(b, c, granted)
    ensures Moves(a, c, granted)
  {
    hide Credit;
    forall s | 0 <= s < |a.scopes| ensures LeaseMoves(a.scopes[s], c.scopes[s], a.nextToken) {
      assert LeaseMoves(a.scopes[s], b.scopes[s], a.nextToken) && LeaseMoves(b.scopes[s], c.scopes[s], b.nextToken);
    }
    forall s | |a.scopes| <= s < |b.scopes|
      ensures c.scopes[s].leaseToken == 0 || c.scopes[s].leaseToken >= a.nextToken
    {
      assert LeaseMoves(b.scopes[s], c.scopes[s], b.nextToken);
    }
    forall t: nat ensures Credit(c.tasks, t) + (if granted == Some(t) then 1 else 0) <= Credit(a.tasks, t) {
      assert Credit(b.tasks, t) <= Credit(a.tasks, t);
    }
  }

  /** Leaving tasks and leases alone. */
  lemma MovesElsewhere(a: Db, b: Db)
    requires b.tasks == a.tasks && ScopesAdded(a.scopes, b.scopes) && a.nextToken <= b.nextToken && a.now <= b.now
    ensures Moves(a, b, None)
  {
    assert forall s | 0 <= s < |a.scopes| :: b.scopes[s] == b.scopes[..|a.scopes|][s];
  }

  lemma CreateMoves(db: Db, sid: nat, ids: seq<nat>, mode: Mode, key: Option<Key>, actor: Option<nat>)
    requires sid < |db.scopes| && (key.Some? ==> KeyUsed(key.value, db.nextToken))
    ensures Moves(db, CreateTask(db, sid, ids, mode, key, actor).0, None)
  {
    hide CreateTask;
    var r := CreateTask(db, sid, ids, mode, key, actor);
    CreateTokens(db, sid, ids, mode, key, actor);
    CreatedTask(db, sid, ids, mode, key, actor);
    assert r.1.Created? ==> r.0.tasks[|db.tasks|].status == TaskPending && r.0.tasks[|db.tasks|].generation == 1;
  }

  lemma RecoverMoves(db: Db, sid: nat)
    requires TasksOk(db) && sid < |db.scopes|
    ensures Moves(db, Recover(db, sid), None)
  {
    hide RecoverItem;
    var next := Recover(db, sid);
    forall t: nat ensures Credit(next.tasks, t) <= Credit(db.tasks, t) {
      assert t < |db.tasks| ==> TaskOk(db, db.tasks[t]) && next.tasks[t] == RecoverTask(sid)(db.tasks[t]);
    }
  }

  lemma GrantMoves(db: Db, sid: nat, t: nat)
    requires TasksOk(db) && sid < |db.scopes| && t < |db.tasks| && Claims(db.tasks[t], sid, db.scopes[sid].paused)
    ensures Moves(db, Grant(db, sid, t).0, Some(t)) && Grant(db, sid, t).1.task == t
  {
    hide LeaseItem, Update;
  }

  function GrantedTask(tk: Option<Ticket>): Option<nat> { if tk.Some? then Some(tk.value.task) else None }

  lemma ClaimMoves(db: Db, sid: nat)
    requires Good(db) && sid < |db.scopes|
    ensures Moves(db, Claim(db, sid).0, GrantedTask(Claim(db, sid).1))
  {
    hide Recover, Wake, NextBatch, CreateTask, Grant, Evolves, Moves, NoneRunning, FirstPending;
    hide RowsOk, TasksOk, ItemsOk, SequencesOk, Claims;
    var r := Recover(db, sid);
    RecoverKeeps(db, sid);
    RecoverShape(db, sid);
    RecoverMoves(db, sid);
    var paused := r.scopes[sid].paused;
    var first := FirstPending(r.tasks, sid, paused);
    if first.Some? {
      GrantMoves(r, sid, first.value);
      MovesOn(db, r, Grant(r, sid, first.value).0, first);
    } else if !paused {
      var w := Wake(r, sid);
      WakeKeeps(r, sid);
      WakeShape(r, sid);
      MovesElsewhere(r, w);
      MovesOn(db, r, w, None);
      BatchInScope(w, sid);
      var ids := NextBatch(w, sid);
      if ids != [] {
        CreateKeeps(w, sid, ids, Execute, None, None);
        CreateShape(w, sid, ids);
        CreateMoves(w, sid, ids, Execute, None, None);
        var c := CreateTask(w, sid, ids, Execute, None, None);
        MovesOn(db, w, c.0, None);
        if c.1.Created? {
          GrantMoves(c.0, sid, c.1.task);
          MovesOn(db, c.0, Grant(c.0, sid, c.1.task).0, Some(c.1.task));
        }
      }
    }
  }

  lemma CompleteMoves(db: Db, tk: Ticket)
    requires tk.scope < |db.scopes| && tk.task < |db.tasks| && db.tasks[tk.task].status == TaskRunning
    requires db.tasks[tk.task].generation <= MAX_GENERATION
    ensures Moves(db, Complete(db, tk), None)
  {}

  lemma ProcessMoves(db: Db, tk: Ticket, pin: nat, authorized: bool)
    requires TicketOk(db, tk)
    ensures Moves(db, Process(db, tk, pin, authorized).0, None)
  {
    hide Clean, Build, Canonical, Revision, Complete, CleanBlocked, Buildable, Moves;
    MovesNot(db);
    if LeaseHeld(db, tk) && authorized && Buildable(db, tk) && !(tk.mode == Execute && CleanBlocked(db, tk.members)) {
      var after := if tk.mode == Execute then Clean(db, tk.members) else db;
      CleanShape(db, tk.members);
      MovesElsewhere(db, after);
      CompleteMoves(after, tk);
      MovesOn(db, after, Complete(after, tk), None);
    }
  }

  lemma SettleMoves(db: Db, tk: Ticket, top: int)
    requires tk.scope < |db.scopes| && tk.task < |db.tasks| && (tk.task, tk.generation) in db.plans
    requires db.tasks[tk.task].status == TaskRunning && db.tasks[tk.task].generation <= MAX_GENERATION
    ensures Moves(db, Settle(db, tk, top), None)
  {
    hide Update, ReturnItem, ObserveItem, Revision;
  }

  lemma CommitMoves(db: Db, tk: Ticket, q: Request, ds: seq<Decision>, authorized: bool)
    requires TicketOk(db, tk) && q.snapshot.at >= 0
    ensures Moves(db, Commit(db, tk, q, ds, authorized).0, None)
  {
    hide Build, Canonical, Revision, Buildable, ApplyDecisions, Settle, MaxSequence, Moves;
    MovesNot(db);
    if Commit(db, tk, q, ds, authorized).1.CommitDone? {
      var mid := ApplyDecisions(db, tk, ds).value;
      MovesElsewhere(db, mid);
      SettleMoves(mid, tk, MaxSequence(ds));
      MovesOn(db, mid, Settle(mid, tk, MaxSequence(ds)), None);
    }
  }

  lemma FailureMoves(db: Db, tk: Ticket, failure: Failure)
    requires TicketOk(db, tk)
    ensures Moves(db, FinishFailure(db, tk, failure), None)
  {
    hide Update, FailItem, DropPlans;
  }

  lemma CancelMoves(db: Db, t: nat)
    requires TasksOk(db) && t < |db.tasks| && db.tasks[t].scope < |db.scopes|
    ensures Moves(db, CancelTask(db, t), None)
  {
    hide Update, CancelItem, DropPlans, PlanKeys;
    assert TaskOk(db, db.tasks[t]);
  }

  lemma PauseMoves(db: Db, sid: nat, paused: bool, expected: nat)
    requires TasksOk(db) && sid < |db.scopes|
    ensures Moves(db, SetPaused(db, sid, paused, expected), None)
  {
    hide PauseItem, DropPlans, PlanKeys;
    var next := SetPaused(db, sid, paused, expected);
    forall t: nat ensures Credit(next.tasks, t) <= Credit(db.tasks, t) {
      assert t < |db.tasks| ==> TaskOk(db, db.tasks[t]);
    }
  }

  /** The task a step hands to a worker, if any. */
  ghost function Granted(s: Sys, step: Step): Option<nat>
    requires Enabled(s, step)
  {
    if step.TakeWork? then GrantedTask(Claim(s.db, step.scope).1) else None
  }

  lemma StepMoves(s: Sys, step: Step)
    requires Inv(s) && Enabled(s, step)
    ensures Moves(s.db, Next(s, step).db, Granted(s, step))
  {
    hide RowsOk, TasksOk, ItemsOk, SequencesOk, Moves, CreateTask, CancelTask, SetPaused, SaveQualification, Claim;
    hide LeaseFree, HasLiveTask, ClaimableItem, Process, Accepts, Commit, FinishFailure, TicketOk, RequestOk, Plan, DistinctCodes, MembersInScope;
    hide MembersKept, AttemptsKept, ItemsOnlyCancelled, EditLogged;
    var db, next := s.db, Next(s, step).db;
    match step
    case Submit(sid, ids, mode, key, actor) =>
      CreateMoves(db, sid, ids, mode, if key.Some? then Some(CallerKey(key.value)) else None, actor);
    case Cancel(t) => CancelMoves(db, t);
    case Retry(t, key, actor) =>
      MovesNot(db);
      CreateMoves(db, db.tasks[t].scope, db.tasks[t].members, db.tasks[t].mode, Some(CallerKey(key)), actor);
    case Pause(sid, paused, expected) => PauseMoves(db, sid, paused, expected);
    case Screen(q) => ScreenElsewhere(db, q);
    case Edit(b) => MovesElsewhere(db, b);
    case Tick(now) => MovesElsewhere(db, next);
    case TakeWork(_, sid) => ClaimMoves(db, sid);
    case Prepare(w, pin, authorized) =>
      assert WorkerOk(db, s.workers[w]);
      ProcessMoves(db, s.workers[w].ticket, pin, authorized);
    case Answer(_, _, _) => MovesElsewhere(db, next);
    case Conclude(w, authorized) =>
      var x := s.workers[w];
      assert WorkerOk(db, x);
      CommitMoves(db, x.ticket, x.request, x.decisions, authorized);
    case Interrupt(_, _) => MovesNot(db);
    case Abandon(w) =>
      assert WorkerOk(db, s.workers[w]);
      FailureMoves(db, s.workers[w].ticket, s.workers[w].failure);
    case Crash(_) => MovesNot(db);
  }

  lemma ScreenElsewhere(db: Db, q: Qualification)
    ensures Moves(db, SaveQualification(db, q), None)
  {
    hide Update, SupersedeItem, InsertItem, FindQualification;
  }

  /** Releasing a lease ends exactly the claims under that token in that scope: nobody holds it any
      more, and whoever holds another lease still does. */
  lemma ReleaseEndsOwnClaim(db: Db, sid: nat, token: nat, tk: Ticket)
    requires sid < |db.scopes|
    ensures LeaseHeld(Release(db, sid, token), tk) <==> LeaseHeld(db, tk) && !(tk.scope == sid && tk.token == token)
    ensures db.scopes[sid].leaseToken != token ==> Release(db, sid, token) == db
    ensures db.scopes[sid].leaseToken == token ==> LeaseFree(Release(db, sid, token).scopes[sid], db.now)
  {}

  // ----- over runs -----

  ghost function Grants(s: Sys, steps: seq<Step>, t: nat): nat
    requires Runs(s, steps)
    decreases |steps|
  {
    if steps == [] then 0
    else (if Granted(s, steps[0]) == Some(t) then 1 else 0) + Grants(Next(s, steps[0]), steps[1..], t)
  }

  lemma {:induction false} GrantsSpendCredit(s: Sys, steps: seq<Step>, t: nat)
    requires Inv(s) && Runs(s, steps)
    ensures Grants(s, steps, t) + Credit(After(s, steps).db.tasks, t) <= Credit(s.db.tasks, t)
    decreases |steps|
  {
    hide Inv, Enabled, Next, Granted, Credit;
    if steps != [] {
      StepMoves(s, steps[0]);
      StepKeepsInv(s, steps[0]);
      GrantsSpendCredit(Next(s, steps[0]), steps[1..], t);
    }
  }

  /** No task is claimed more than three times, whatever happens around it. */
  lemma ClaimedAtMostThreeTimes(s: Sys, steps: seq<Step>, t: nat)
    requires Inv(s) && Runs(s, steps)
    ensures Grants(s, steps, t) <= MAX_GENERATION
  {
    hide Enabled, Next, Grants, After;
    GrantsSpendCredit(s, steps, t);
    RunKeepsInv(s, steps);
    CreditBounds(s.db, t);
    CreditBounds(After(s, steps).db, t);
  }

  lemma CreditBounds(db: Db, t: nat)
    requires TasksOk(db)
    ensures 0 <= Credit(db.tasks, t) <= MAX_GENERATION
  {
    assert t < |db.tasks| ==> TaskOk(db, db.tasks[t]);
  }

  /** Completed and cancelled tasks stay so; a failed one can only still be cancelled. */
  lemma {:induction false} TerminalForever(s: Sys, steps: seq<Step>, t: nat)
    requires Inv(s) && Runs(s, steps) && t < |s.db.tasks|
    ensures t < |After(s, steps).db.tasks| && Terminal(s.db.tasks[t].status, After(s, steps).db.tasks[t].status)
    decreases |steps|
  {
    hide Inv, Enabled, Next, Granted, Credit;
    if steps != [] {
      StepMoves(s, steps[0]);
      StepKeepsInv(s, steps[0]);
      TerminalForever(Next(s, steps[0]), steps[1..], t);
    }
  }

  /** In every reachable state the running task of a scope is unique, holds the scope's lease, and is
      no execution of a paused scope. */
  lemma OneRunningPerScope(s: Sys, steps: seq<Step>, db: Db, t: nat, u: nat)
    requires Inv(s) && Runs(s, steps) && db == After(s, steps).db && t < |db.tasks| && u < |db.tasks|
    requires db.tasks[t].status == TaskRunning && db.tasks[u].status == TaskRunning && db.tasks[t].scope == db.tasks[u].scope
    ensures t == u && db.tasks[t].scope < |db.scopes| && db.scopes[db.tasks[t].scope].leaseToken == db.tasks[t].workerToken
    ensures db.scopes[db.tasks[t].scope].paused ==> db.tasks[t].mode == Simulate
  {
    hide Runs, After, RowsOk, ItemsOk, SequencesOk, WorkerOk, MembersInScope;
    RunKeepsInv(s, steps);
    assert TaskOk(db, db.tasks[t]) && TaskOk(db, db.tasks[u]);
  }

  /** In every reachable state a paused scope has no execution that is pending or running. */
  lemma PausedScopeIsQuiet(s: Sys, steps: seq<Step>, db: Db, t: nat)
    requires Inv(s) && Runs(s, steps) && db == After(s, steps).db && t < |db.tasks|
    ensures db.tasks[t].scope < |db.scopes|
    ensures db.scopes[db.tasks[t].scope].paused && Live(db.tasks[t]) ==> db.tasks[t].mode == Simulate
  {
    hide Runs, After, RowsOk, ItemsOk, SequencesOk, WorkerOk, MembersInScope;
    RunKeepsInv(s, steps);
    assert TaskOk(db, db.tasks[t]);
  }

  /** Whoever holds a lease after a step held it before: no step hands it out again. */
  lemma HeldOnlyIfHeldBefore(s: Sys, step: Step, tk: Ticket)
    requires Inv(s) && Enabled(s, step) && TicketOk(s.db, tk) && LeaseHeld(Next(s, step).db, tk)
    ensures LeaseHeld(s.db, tk)
  {
    hide Enabled, Next, RowsOk, ItemsOk, SequencesOk, WorkerOk, Credit, Granted, ItemsEvolve;
    var a, b := s.db, Next(s, step).db;
    StepKeepsTables(s, step);
    StepMoves(s, step);
    assert TaskOk(a, a.tasks[tk.task]);
    TicketEvolves(a, b, tk);
    assert a.tasks[tk.task] == b.tasks[tk.task];
    assert TaskOk(b, b.tasks[tk.task]);
    assert LeaseMoves(a.scopes[tk.scope], b.scopes[tk.scope], a.nextToken);
  }

  lemma LostStaysLost(s: Sys, step: Step, tk: Ticket)
    requires Inv(s) && Enabled(s, step) && TicketOk(s.db, tk) && !LeaseHeld(s.db, tk)
    ensures !LeaseHeld(Next(s, step).db, tk) && TicketOk(Next(s, step).db, tk)
  {
    hide Inv, Enabled, Next, LeaseHeld, TicketOk, Evolves;
    if LeaseHeld(Next(s, step).db, tk) {
      HeldOnlyIfHeldBefore(s, step, tk);
    }
    StepKeepsTables(s, step);
    TicketEvolves(s.db, Next(s, step).db, tk);
  }

  lemma {:induction false} LostForever(s: Sys, steps: seq<Step>, tk: Ticket)
    requires Inv(s) && Runs(s, steps) && TicketOk(s.db, tk) && !LeaseHeld(s.db, tk)
    ensures !LeaseHeld(After(s, steps).db, tk)
    decreases |steps|
  {
    hide Inv, Enabled, Next, LeaseHeld, TicketOk;
    if steps != [] {
      LostStaysLost(s, steps[0], tk);
      StepKeepsInv(s, steps[0]);
      LostForever(Next(s, steps[0]), steps[1..], tk);
    }
  }

  /** A worker that has lost its lease never changes the database again, however late it wakes up
      and whatever it still holds in memory. */
  lemma StaleWorkerIsHarmless(
    s: Sys, steps: seq<Step>, tk: Ticket, q: Request, ds: seq<Decision>, failure: Failure, pin: nat, authorized: bool)
    requires Inv(s) && Runs(s, steps) && TicketOk(s.db, tk) && !LeaseHeld(s.db, tk) && q.snapshot.at >= 0
    ensures var db := After(s, steps).db;
            && Process(db, tk, pin, authorized) == (db, ProcessFailed(LeaseLost))
            && Commit(db, tk, q, ds, authorized) == (db, CommitFailed(LeaseLost))
            && FinishFailure(db, tk, failure) == db
  {
    hide Inv, Enabled, Next, LeaseHeld, TicketOk, Runs, After, Build, Canonical, Settle, ApplyDecisions, Clean, Complete, Revision, Buildable;
    LostForever(s, steps, tk);
  }
}
