/** What becomes of recorded plans: their content never changes, and an executed or simulated plan is
    final. */
module AllocationPlans {
  import opened AllocationTypes
  import opened AllocationCanonical
  import opened AllocationPolicy
  import opened AllocationStore
  import opened AllocationProtocol
  import opened AllocationInvariants
  import opened AllocationSafety
  import opened AllocationFencing

  predicate Final(s: PlanStatus) { s == Committed || s == Simulated }

  /** No plan is lost, hash and decisions stay, and a final plan stays as it is. */
  ghost predicate PlansKept(a: Db, b: Db) {
    forall k | k in a.plans ::
      && k in b.plans && b.plans[k] == a.plans[k].(status := b.plans[k].status)
      && (Final(a.plans[k].status) ==> b.plans[k] == a.plans[k])
  }

  ghost predicate NoneFinished(a: Db, b: Db) {
    forall k | k in b.plans && Final(b.plans[k].status) :: k in a.plans && Final(a.plans[k].status)
  }

  /** The task of a final plan is completed. */
  ghost predicate PlansSettled(db: Db) {
    forall k | k in db.plans && Final(db.plans[k].status) :: k.0 < |db.tasks| && db.tasks[k.0].status == TaskCompleted
  }

  lemma SamePlans(a: Db, b: Db)
    requires b.plans == a.plans
    ensures PlansKept(a, b) && NoneFinished(a, b)
  {}

  lemma SettledKept(a: Db, b: Db, granted: Option<nat>)
    requires PlansSettled(a) && NoneFinished(a, b) && TasksMove(a.tasks, b.tasks, granted)
    ensures PlansSettled(b)
  {
    hide Credit;
  }

  lemma DroppedPlans(a: Db, b: Db, keys: set<(nat, nat)>, status: PlanStatus)
    requires b.plans == DropPlans(a.plans, keys, status) && !Final(status)
    ensures PlansKept(a, b) && NoneFinished(a, b)
  {}

  /** Recording a plan twice under one generation keeps the first one; other plans stay. */
  lemma FirstRecordWins(db: Db, tk: Ticket, q: Request, ds: seq<Decision>, status: PlanStatus, other: Request, es: seq<Decision>, next: PlanStatus)
    ensures var once := RecordPlan(db, tk, q, ds, status);
            && (tk.task, tk.generation) in once.plans && PlansKept(db, once)
            && ((tk.task, tk.generation) !in db.plans ==> once.plans[(tk.task, tk.generation)] == PlanRow(q.hash, ds, status))
            && RecordPlan(once, tk, other, es, next) == once
  {}

  lemma ClaimPlans(db: Db, sid: nat)
    requires sid < |db.scopes|
    ensures Claim(db, sid).0.plans == db.plans
  {
    hide Update, NextBatch, FirstPending, CreateTask, Wakes, RecoverTask, RecoverItem, LeaseItem;
  }

  lemma ProcessPlans(db: Db, tk: Ticket, pin: nat, authorized: bool)
    ensures Process(db, tk, pin, authorized).0.plans == db.plans
  {
    hide Build, Canonical, Revision, CleanBlocked, Buildable, Update, CleanChanges, Restated;
  }

  lemma ScreenPlans(db: Db, q: Qualification)
    ensures SaveQualification(db, q).plans == db.plans
  {
    hide Update, InsertItem, FindQualification;
  }

  /** Only a plan still open becomes committed or simulated, together with its task's completion. */
  lemma CommitPlans(db: Db, tk: Ticket, q: Request, ds: seq<Decision>, authorized: bool)
    requires PlansSettled(db) && TicketOk(db, tk) && q.snapshot.at >= 0
    ensures var next := Commit(db, tk, q, ds, authorized).0;
            PlansKept(db, next) && PlansSettled(next)
  {
    hide Build, Canonical, Revision, Buildable, ApplyDecisions, MaxSequence, Update, ObserveItem, ReturnItem, Advance;
    var next := Commit(db, tk, q, ds, authorized).0;
    if Commit(db, tk, q, ds, authorized).1.CommitDone? {
      var key := (tk.task, tk.generation);
      var mid := ApplyDecisions(db, tk, ds).value;
      assert next.plans == db.plans[key := db.plans[key].(status := if tk.mode == Simulate then Simulated else Committed)];
      assert next.tasks == db.tasks[tk.task := db.tasks[tk.task].(status := TaskCompleted)];
      assert !Final(db.plans[key].status);
    }
  }

  lemma CancelPlans(db: Db, t: nat)
    requires t < |db.tasks| && db.tasks[t].scope < |db.scopes|
    ensures PlansKept(db, CancelTask(db, t)) && NoneFinished(db, CancelTask(db, t))
  {
    hide PlansKept, NoneFinished, Update, CancelItem, DropPlans;
    SamePlans(db, db);
    if db.tasks[t].status != TaskCompleted {
      DroppedPlans(db, CancelTask(db, t), PlanKeys(db.plans, {t}), CancelledPlan);
    }
  }

  lemma PausePlans(db: Db, sid: nat, paused: bool, expected: nat)
    requires sid < |db.scopes|
    ensures PlansKept(db, SetPaused(db, sid, paused, expected)) && NoneFinished(db, SetPaused(db, sid, paused, expected))
  {
    hide PlansKept, NoneFinished, Update, DropPlans;
    SamePlans(db, db);
    var tasks := Update(db.tasks, PauseTask(sid));
    var next := SetPaused(db, sid, paused, expected);
    if next.plans != db.plans {
      DroppedPlans(db, next,
        PlanKeys(db.plans, set t | 0 <= t < |tasks| && tasks[t].scope == sid && tasks[t].status == TaskCancelled), CancelledPlan);
    } else {
      SamePlans(db, next);
    }
  }

  lemma FailurePlans(db: Db, tk: Ticket, failure: Failure)
    ensures PlansKept(db, FinishFailure(db, tk, failure)) && NoneFinished(db, FinishFailure(db, tk, failure))
  {
    hide PlansKept, NoneFinished, Update, DropPlans, FailItem;
    SamePlans(db, db);
    if LeaseHeld(db, tk) {
      DroppedPlans(db, FinishFailure(db, tk, failure), {(tk.task, tk.generation)},
                   if failure == SnapshotStale then StalePlan else InvalidPlan);
    }
  }

  lemma AnswerPlans(db: Db, tk: Ticket, q: Request, ds: seq<Decision>, status: PlanStatus)
    requires !Final(status)
    ensures PlansKept(db, RecordPlan(db, tk, q, ds, status)) && NoneFinished(db, RecordPlan(db, tk, q, ds, status))
  {}

  lemma StepKeepsPlans(s: Sys, step: Step)
    requires Inv(s) && PlansSettled(s.db) && Enabled(s, step)
    ensures PlansKept(s.db, Next(s, step).db) && PlansSettled(Next(s, step).db)
  {
    hide RowsOk, TasksOk, ItemsOk, SequencesOk, PlansKept, NoneFinished, PlansSettled, LeasesMove, TasksMove, CreateTask, CancelTask, SetPaused;
    hide SaveQualification, Claim, LeaseFree, HasLiveTask, ClaimableItem, Process, Accepts, Commit, FinishFailure, RecordPlan;
    hide TicketOk, RequestOk, Plan, DistinctCodes, MembersInScope, MembersKept, AttemptsKept, ItemsOnlyCancelled;
    var db, next := s.db, Next(s, step).db;
    StepMoves(s, step);
    match step {
      case Cancel(t) => CancelPlans(db, t);
      case Pause(sid, paused, expected) => PausePlans(db, sid, paused, expected);
      case Screen(q) => ScreenPlans(db, q); SamePlans(db, next);
      case TakeWork(_, sid) => ClaimPlans(db, sid); SamePlans(db, next);
      case Prepare(w, pin, authorized) =>
        ProcessPlans(db, s.workers[w].ticket, pin, authorized);
        SamePlans(db, next);
      case Answer(w, response, _) =>
        SamePlans(db, db);
        if response.Some? {
          AnswerPlans(db, s.workers[w].ticket, s.workers[w].request, response.value.decisions, Proposed);
          AnswerPlans(db, s.workers[w].ticket, s.workers[w].request, response.value.decisions, InvalidPlan);
        }
      case Conclude(w, authorized) =>
        var x := s.workers[w];
        assert WorkerOk(db, x);
        CommitPlans(db, x.ticket, x.request, x.decisions, authorized);
      case Abandon(w) => FailurePlans(db, s.workers[w].ticket, s.workers[w].failure);
      case _ => SamePlans(db, next);
    }
    if !step.Conclude? {
      SettledKept(db, next, Granted(s, step));
    }
  }

  /** In any run no recorded plan is lost or rewritten, and a committed or simulated plan stays
      exactly as it was. */
  lemma {:induction false} PlansNeverRewritten(s: Sys, steps: seq<Step>)
    requires Inv(s) && PlansSettled(s.db) && Runs(s, steps)
    ensures PlansKept(s.db, After(s, steps).db) && PlansSettled(After(s, steps).db)
    decreases |steps|
  {
    hide Inv, Enabled, Next, PlansSettled, Final;
    if steps != [] {
      StepKeepsInv(s, steps[0]);
      StepKeepsPlans(s, steps[0]);
      PlansNeverRewritten(Next(s, steps[0]), steps[1..]);
    }
  }
}
