/** The remaining transactions keep the invariant too, so it holds in every reachable state. */
module AllocationSafety {
  import opened Orders
  import opened AllocationTypes
  import opened AllocationPolicy
  import opened AllocationCanonical
  import opened AllocationBatching
  import opened AllocationStore
  import opened AllocationProtocol
  import opened AllocationCommit
  import opened AllocationInvariants

  // ----- committing -----

  /** A commit that gets past its checks carries out the plan of the tables it finds. */
  lemma CommitPlansCurrentState(db: Db, tk: Ticket, q: Request, ds: seq<Decision>)
    requires RowsOk(db) && Buildable(db, tk)
    requires q.hash == Canonical(q.snapshot) && WellKeyed(q.snapshot) && q.snapshot.at >= 0 && ds == Plan(q.snapshot)
    requires Canonical(Build(db, tk, q.snapshot.at, Revision(db, tk.scope))) == q.hash
    ensures ds == Plan(Build(db, tk, q.snapshot.at, Revision(db, tk.scope)))
    ensures Executable(db, ds) && q.snapshot.nextSequence == db.scopes[tk.scope].nextSequence
  {
    hide Plan, SnapshotMembers, WellKeyed, Executable;
    var s := Build(db, tk, q.snapshot.at, Revision(db, tk.scope));
    SnapshotWellKeyed(db, tk, q.snapshot.at, Revision(db, tk.scope));
    HashDeterminesPlan(s, q.snapshot);
    PlanExecutable(db, tk, q.snapshot.at, Revision(db, tk.scope));
  }

  /** After the decision loop nothing is leased to the task any more. */
  lemma LoopSettlesLeases(db: Db, tk: Ticket, q: Request, ds: seq<Decision>)
    requires tk.mode == Execute && LeasedCovered(db, tk, q.snapshot) && q.snapshot.nextSequence >= 0
    requires ds == Plan(q.snapshot) && ApplyDecisions(db, tk, ds).Some?
    ensures NothingLeased(ApplyDecisions(db, tk, ds).value.items, tk.task)
  {
    hide Plan, InSnapshot, ApplyDecisions;
    ApplyItems(db, tk, ds);
    var next := ApplyDecisions(db, tk, ds).value;
    forall i | 0 <= i < |next.items| && next.items[i].status == ItemLeased ensures next.items[i].task != Some(tk.task) {
      if StillLeased(next.items[i], tk.task) {
        assert db.items[i] == next.items[i];
        PlanDecidesSnapshot(q.snapshot, next.items[i].member);
      }
    }
  }

  /** The tables after the loop, with the scope's next sequence advanced past every new target. */
  lemma LoopKeepsRows(db: Db, tk: Ticket, ds: seq<Decision>)
    requires RowsOk(db) && tk.mode == Execute && Executable(db, ds) && ApplyDecisions(db, tk, ds).Some?
    ensures RowsOk(ApplyDecisions(db, tk, ds).value)
  {
    hide Executable, ApplyDecisions, TouchedBy;
    ApplyMembers(db, tk, ds);
  }

  lemma LoopKeepsTasks(db: Db, tk: Ticket, ds: seq<Decision>)
    requires TasksOk(db) && tk.mode == Execute && Executable(db, ds) && ApplyDecisions(db, tk, ds).Some?
    ensures TasksOk(ApplyDecisions(db, tk, ds).value)
  {
    hide Executable, ApplyDecisions, TouchedBy;
    ApplyMembers(db, tk, ds);
    var next := ApplyDecisions(db, tk, ds).value;
    forall t | 0 <= t < |db.tasks| ensures TaskOk(next, next.tasks[t]) {
      assert TaskOk(db, db.tasks[t]);
    }
  }

  lemma LoopKeepsItems(db: Db, tk: Ticket, ds: seq<Decision>)
    requires ItemsOk(db) && tk.mode == Execute && ApplyDecisions(db, tk, ds).Some?
    ensures ItemsOk(ApplyDecisions(db, tk, ds).value)
    ensures ItemsEvolve(db.items, ApplyDecisions(db, tk, ds).value, db.nextToken)
  {
    hide ApplyDecisions;
    ApplyItems(db, tk, ds);
    var next := ApplyDecisions(db, tk, ds).value;
    forall i | 0 <= i < |db.items| ensures ItemOk(next, next.items[i]) {
      assert ItemOk(db, db.items[i]);
    }
  }

  /** The scope after a commit of these decisions. */
  function Advanced(db: Db, tk: Ticket, ds: seq<Decision>): Db
    requires tk.scope < |db.scopes|
  {
    db.(scopes := db.scopes[tk.scope := Advance(db.scopes[tk.scope], MaxSequence(ds))])
  }

  lemma PicksAreExecutable(db: Db, ds: seq<Decision>)
    requires Executable(db, ds)
    ensures forall d | d in Picks(ds) :: 0 <= d.memberId < |db.members| && d.sequence >= 0 && d.qualificationRef >= 0
  {
    PicksAreAssigns(ds);
  }

  lemma NextSequenceAdvances(db: Db, tk: Ticket, ds: seq<Decision>)
    requires tk.scope < |db.scopes| && db.scopes[tk.scope].nextSequence >= 1
    requires Numbered(Picks(ds), db.scopes[tk.scope].nextSequence)
    ensures Advanced(db, tk, ds).scopes[tk.scope].nextSequence == db.scopes[tk.scope].nextSequence + |Picks(ds)|
  {
    TopOfPicks(ds, db.scopes[tk.scope].nextSequence);
  }

  lemma LoopKeepsSequences(db: Db, tk: Ticket, ds: seq<Decision>)
    requires SequencesOk(db) && tk.scope < |db.scopes| && tk.mode == Execute
    requires Executable(db, ds) && ApplyDecisions(db, tk, ds).Some?
    requires Numbered(Picks(ds), db.scopes[tk.scope].nextSequence)
    ensures SequencesOk(Advanced(ApplyDecisions(db, tk, ds).value, tk, ds))
  {
    hide Executable, ApplyDecisions, Picks, MaxSequence, Advance;
    PicksAreExecutable(db, ds);
    ApplyAttempts(db, tk, ds);
    var mid := ApplyDecisions(db, tk, ds).value;
    NextSequenceAdvances(mid, tk, ds);
    var next := Advanced(mid, tk, ds);
    var n, first := |db.attempts|, db.scopes[tk.scope].nextSequence;
    forall a | n <= a < |next.attempts|
      ensures next.attempts[a].target.Some? && next.attempts[a].target.value.scope == tk.scope
      ensures next.attempts[a].target.value.sequence == first + (a - n)
    {
      assert next.attempts[a] == NewAttempts(db, tk.scope, Picks(ds))[a - n];
    }
  }

  lemma AdvanceKeeps(db: Db, tk: Ticket, ds: seq<Decision>)
    requires RowsOk(db) && TasksOk(db) && ItemsOk(db) && tk.scope < |db.scopes|
    ensures var next := Advanced(db, tk, ds);
            RowsOk(next) && TasksOk(next) && ItemsOk(next) && TasksEvolve(db.tasks, next.tasks, db.nextToken)
  {
    hide MaxSequence;
    var next := Advanced(db, tk, ds);
    forall t | 0 <= t < |db.tasks| ensures TaskOk(next, next.tasks[t]) {
      assert TaskOk(db, db.tasks[t]);
    }
    forall i | 0 <= i < |db.items| ensures ItemOk(next, next.items[i]) {
      assert ItemOk(db, db.items[i]);
    }
  }

  lemma LoopKeeps(db: Db, tk: Ticket, ds: seq<Decision>)
    requires Good(db) && tk.scope < |db.scopes| && tk.mode == Execute
    requires Executable(db, ds) && ApplyDecisions(db, tk, ds).Some?
    requires Numbered(Picks(ds), db.scopes[tk.scope].nextSequence)
    ensures var next := Advanced(ApplyDecisions(db, tk, ds).value, tk, ds);
            Good(next) && Evolves(db, next)
  {
    hide Executable, ApplyDecisions, Picks, MaxSequence, Numbered, RowsOk, TasksOk, ItemsOk, SequencesOk, TasksEvolve;
    LoopKeepsRows(db, tk, ds);
    LoopKeepsTasks(db, tk, ds);
    LoopKeepsItems(db, tk, ds);
    LoopKeepsSequences(db, tk, ds);
    var mid := ApplyDecisions(db, tk, ds).value;
    AdvanceKeeps(mid, tk, ds);
  }

  /** Recording the observed revision and the plan's outcome. */
  lemma ObserveKeeps(db: Db, task: nat, revision: nat, plans: map<(nat, nat), PlanRow>)
    requires Good(db)
    ensures var next := db.(items := Update(db.items, ObserveItem(task, revision)), plans := plans);
            Good(next) && Evolves(db, next) && (NothingLeased(db.items, task) ==> NothingLeased(next.items, task))
  {
    hide RowsOk, SequencesOk;
    var next := db.(items := Update(db.items, ObserveItem(task, revision)), plans := plans);
    Frame(db, next);
    ItemStatusesKeep(db, next);
  }

  /** Changing items without activating any, and leasing none. */
  lemma ItemStatusesKeep(db: Db, next: Db)
    requires TasksOk(db) && ItemsOk(db) && next == db.(items := next.items, plans := next.plans) && |next.items| == |db.items|
    requires forall i | 0 <= i < |db.items| ::
               && next.items[i].member == db.items[i].member && next.items[i].qualification == db.items[i].qualification
               && (Active(next.items[i]) ==> Active(db.items[i]))
               && (next.items[i].task == db.items[i].task || next.items[i].task == None)
               && (next.items[i].status == ItemPending ==> next.items[i].task == None || next.items[i] == db.items[i])
               && (next.items[i].status == ItemLeased ==> next.items[i] == db.items[i])
    ensures TasksOk(next) && ItemsOk(next) && Evolves(db, next)
  {
    forall t | 0 <= t < |db.tasks| ensures TaskOk(next, next.tasks[t]) {
      assert TaskOk(db, db.tasks[t]);
    }
    forall i | 0 <= i < |db.items| ensures ItemOk(next, next.items[i]) {
      assert ItemOk(db, db.items[i]);
    }
  }

  lemma {:induction false} SimulationAppliesNothing(db: Db, tk: Ticket, ds: seq<Decision>)
    requires tk.mode == Simulate
    ensures ApplyDecisions(db, tk, ds) == Some(db)
  {
    if ds != [] {
      SimulationAppliesNothing(db, tk, ds[..|ds| - 1]);
    }
  }

  lemma SimulationLeasesNothing(db: Db, tk: Ticket)
    requires ItemsOk(db) && TicketOk(db, tk) && tk.mode == Simulate
    ensures NothingLeased(db.items, tk.task) && Update(db.items, ReturnItem(tk.task)) == db.items
  {
    forall i | 0 <= i < |db.items| && db.items[i].status == ItemLeased ensures db.items[i].task != Some(tk.task) {
      assert ItemOk(db, db.items[i]);
    }
  }

  function Scoped(db: Db, tk: Ticket, top: int): Db
    requires tk.scope < |db.scopes|
  {
    db.(scopes := db.scopes[tk.scope := Advance(db.scopes[tk.scope], if tk.mode == Simulate then 0 else top)])
  }

  /** What Settle does once the loop has left nothing leased. */
  lemma SettleKeeps(db: Db, mid: Db, tk: Ticket, top: int)
    requires tk.scope < |mid.scopes| && tk.task < |mid.tasks| && (tk.task, tk.generation) in mid.plans
    requires Good(db) && Good(Scoped(mid, tk, top)) && Evolves(db, Scoped(mid, tk, top))
    requires TicketOk(Scoped(mid, tk, top), tk) && Fenced(mid, tk) && NothingLeased(mid.items, tk.task)
    ensures Good(Settle(mid, tk, top)) && Evolves(db, Settle(mid, tk, top))
  {
    hide RowsOk, TasksOk, SequencesOk, ItemsOk, Complete, Evolves, Revision, ObserveItem, NothingLeased, Advance;
    var adv := Scoped(mid, tk, top);
    if tk.mode == Simulate {
      SimulationLeasesNothing(adv, tk);
    }
    var revision := Revision(adv, tk.scope);
    var key := (tk.task, tk.generation);
    var plans := mid.plans[key := mid.plans[key].(status := if tk.mode == Simulate then Simulated else Committed)];
    var seen := adv.(items := Update(mid.items, ObserveItem(tk.task, revision)), plans := plans);
    ObserveKeeps(adv, tk.task, revision, plans);
    EvolvesTransitive(db, adv, seen);
    TicketSurvives(adv, seen, tk);
    CompleteKeeps(seen, tk);
    EvolvesTransitive(db, seen, Complete(seen, tk));
  }

  lemma CommitKeeps(db: Db, tk: Ticket, q: Request, ds: seq<Decision>, authorized: bool)
    requires Good(db) && TicketOk(db, tk) && RequestOk(db, tk, q) && ds == Plan(q.snapshot)
    ensures var next := Commit(db, tk, q, ds, authorized).0;
            Good(next) && Evolves(db, next)
  {
    hide RowsOk, TasksOk, SequencesOk, ItemsOk, Plan, WellKeyed, Revision, Buildable, Canonical, Build;
    hide Settle, Evolves, LeasedCovered, ApplyDecisions, MaxSequence, TicketOk, Numbered, Picks, Executable, NothingLeased;
    EvolvesReflexive(db);
    var r := Commit(db, tk, q, ds, authorized);
    if r.1.CommitDone? {
      var applied, top := ApplyDecisions(db, tk, ds).value, MaxSequence(ds);
      if tk.mode == Simulate {
        SimulationAppliesNothing(db, tk, ds);
        SimulationLeasesNothing(db, tk);
        assert Scoped(db, tk, top) == db;
      } else {
        CommitPlansCurrentState(db, tk, q, ds);
        PlanFollowsLineup(q.snapshot);
        LoopSettlesLeases(db, tk, q, ds);
        LoopKeeps(db, tk, ds);
      }
      TicketSurvives(db, Scoped(applied, tk, top), tk);
      SettleKeeps(db, applied, tk, top);
    }
  }

  // ----- failing, cancelling, pausing -----

  /** The failed task's leased items become pending or failed together with it. */
  lemma FailItems(db: Db, tk: Ticket, task: Task, status: ItemStatus, plans: map<(nat, nat), PlanRow>)
    requires ItemsOk(db) && Fenced(db, tk) && tk.scope < |db.scopes| && status in {ItemPending, ItemFailed}
    requires task == db.tasks[tk.task].(status := task.status, generation := task.generation, workerToken := task.workerToken)
    requires task.status != TaskRunning
    ensures var next := Release(db.(tasks := db.tasks[tk.task := task], plans := plans,
                                    items := Update(db.items, FailItem(tk.task, status))), tk.scope, tk.token);
            ItemsOk(next) && ItemsEvolve(db.items, next, db.nextToken)
  {
    var next := Release(db.(tasks := db.tasks[tk.task := task], plans := plans,
                            items := Update(db.items, FailItem(tk.task, status))), tk.scope, tk.token);
    forall i | 0 <= i < |db.items|
      ensures ItemOk(next, next.items[i]) && (LeasedUnder(next, next.items[i], db.nextToken) ==> next.items[i] == db.items[i])
      ensures Active(next.items[i]) ==> Active(db.items[i])
      ensures next.items[i].qualification == db.items[i].qualification
    {
      assert ItemOk(db, db.items[i]);
    }
  }

  lemma FailureKeeps(db: Db, tk: Ticket, failure: Failure)
    requires Good(db) && TicketOk(db, tk)
    ensures Good(FinishFailure(db, tk, failure)) && Evolves(db, FinishFailure(db, tk, failure))
  {
    hide RowsOk, TasksOk, SequencesOk, ItemsOk, TasksEvolve, ItemsEvolve, DropPlans;
    EvolvesReflexive(db);
    if LeaseHeld(db, tk) {
      var again := failure == SnapshotStale && tk.generation < MAX_GENERATION;
      var task := db.tasks[tk.task].(
        status := if again then TaskPending else TaskFailed,
        generation := if again then tk.generation + 1 else tk.generation, workerToken := 0);
      var plans := DropPlans(db.plans, {(tk.task, tk.generation)}, if failure == SnapshotStale then StalePlan else InvalidPlan);
      FailItems(db, tk, task, if again then ItemPending else ItemFailed, plans);
      RetireTasks(db, tk, task);
      SameTasks(Release(db.(tasks := db.tasks[tk.task := task]), tk.scope, tk.token), FinishFailure(db, tk, failure));
      Frame(db, FinishFailure(db, tk, failure));
    }
  }

  lemma SameTasks(a: Db, b: Db)
    requires TasksOk(a) && b.tasks == a.tasks && b.scopes == a.scopes && b.members == a.members && b.nextToken == a.nextToken
    ensures TasksOk(b)
  {
    forall t | 0 <= t < |a.tasks| ensures TaskOk(b, b.tasks[t]) {
      assert TaskOk(a, a.tasks[t]);
    }
  }

  lemma CancelTasks(db: Db, t: nat)
    requires TasksOk(db) && t < |db.tasks| && db.tasks[t].scope < |db.scopes|
    ensures TasksOk(CancelTask(db, t)) && TasksEvolve(db.tasks, CancelTask(db, t).tasks, db.nextToken)
  {
    hide DropPlans, PlanKeys, CancelItem;
    var next := CancelTask(db, t);
    forall u | 0 <= u < |db.tasks| ensures TaskOk(next, next.tasks[u]) {
      assert TaskOk(db, db.tasks[u]);
      assert TaskOk(db, db.tasks[t]);
    }
  }

  lemma CancelItems(db: Db, t: nat)
    requires ItemsOk(db) && t < |db.tasks| && db.tasks[t].scope < |db.scopes|
    ensures ItemsOk(CancelTask(db, t)) && ItemsEvolve(db.items, CancelTask(db, t), db.nextToken)
  {
    hide DropPlans, PlanKeys;
    var next := CancelTask(db, t);
    forall i | 0 <= i < |db.items|
      ensures ItemOk(next, next.items[i]) && (LeasedUnder(next, next.items[i], db.nextToken) ==> next.items[i] == db.items[i])
      ensures Active(next.items[i]) ==> Active(db.items[i])
      ensures next.items[i].qualification == db.items[i].qualification
    {
      assert ItemOk(db, db.items[i]);
    }
  }

  lemma CancelKeeps(db: Db, t: nat)
    requires Good(db) && t < |db.tasks| && db.tasks[t].scope < |db.scopes|
    ensures Good(CancelTask(db, t)) && Evolves(db, CancelTask(db, t))
  {
    hide RowsOk, TasksOk, SequencesOk, ItemsOk, ItemsEvolve, TasksEvolve, DropPlans, PlanKeys;
    CancelTasks(db, t);
    CancelItems(db, t);
    Frame(db, CancelTask(db, t));
  }

  lemma PauseTasks(db: Db, sid: nat, paused: bool, expected: nat)
    requires TasksOk(db) && sid < |db.scopes|
    ensures var next := SetPaused(db, sid, paused, expected);
            TasksOk(next) && TasksEvolve(db.tasks, next.tasks, db.nextToken)
  {
    hide DropPlans, PlanKeys, PauseItem;
    var next := SetPaused(db, sid, paused, expected);
    forall u | 0 <= u < |db.tasks| ensures TaskOk(next, next.tasks[u]) {
      assert TaskOk(db, db.tasks[u]);
    }
  }

  lemma PauseItems(db: Db, sid: nat, paused: bool, expected: nat)
    requires ItemsOk(db) && sid < |db.scopes|
    ensures var next := SetPaused(db, sid, paused, expected);
            ItemsOk(next) && ItemsEvolve(db.items, next, db.nextToken)
  {
    hide DropPlans, PlanKeys;
    var next := SetPaused(db, sid, paused, expected);
    forall i | 0 <= i < |db.items|
      ensures ItemOk(next, next.items[i]) && (LeasedUnder(next, next.items[i], db.nextToken) ==> next.items[i] == db.items[i])
      ensures Active(next.items[i]) ==> Active(db.items[i])
      ensures next.items[i].qualification == db.items[i].qualification
    {
      assert ItemOk(db, db.items[i]);
    }
  }

  lemma PauseKeeps(db: Db, sid: nat, paused: bool, expected: nat)
    requires Good(db) && sid < |db.scopes|
    ensures Good(SetPaused(db, sid, paused, expected)) && Evolves(db, SetPaused(db, sid, paused, expected))
  {
    hide RowsOk, TasksOk, SequencesOk, ItemsOk, ItemsEvolve, TasksEvolve, DropPlans, PlanKeys;
    PauseTasks(db, sid, paused, expected);
    PauseItems(db, sid, paused, expected);
    Frame(db, SetPaused(db, sid, paused, expected));
  }

  // ----- screening and outside edits -----

  lemma {:induction false} FoundQualification(quals: seq<Qualification>, m: nat, revision: nat)
    ensures FindQualification(quals, m, revision).Some? ==>
              FindQualification(quals, m, revision).value < |quals| && quals[FindQualification(quals, m, revision).value].member == m
  {
    if quals != [] {
      FoundQualification(quals[..|quals| - 1], m, revision);
    }
  }

  lemma ScreenKeeps(db: Db, q: Qualification)
    requires Good(db) && q.member < |db.members| && DistinctCodes(q.tags)
    ensures Good(SaveQualification(db, q)) && Evolves(db, SaveQualification(db, q))
  {
    hide RowsOk, SequencesOk, TasksOk, FindQualification;
    FoundQualification(db.quals, q.member, q.revision);
    var found := FindQualification(db.quals, q.member, q.revision);
    var id := if found.Some? then found.value else |db.quals|;
    var wide := if found.Some? then db else db.(quals := db.quals + [q]);
    QualificationAdded(db, wide, q);
    var less := wide.(items := Update(wide.items, SupersedeItem(q.member, id)));
    ItemStatusesKeep(wide, less);
    Frame(wide, less);
    ItemInserted(less, id, q.member);
  }

  lemma QualificationAdded(db: Db, wide: Db, q: Qualification)
    requires Good(db) && q.member < |db.members| && DistinctCodes(q.tags)
    requires wide == db || wide == db.(quals := db.quals + [q])
    ensures Good(wide) && Evolves(db, wide)
  {
    hide DistinctCodes;
    forall t | 0 <= t < |db.tasks| ensures TaskOk(wide, wide.tasks[t]) {
      assert TaskOk(db, db.tasks[t]);
    }
    forall i | 0 <= i < |db.items| ensures ItemOk(wide, wide.items[i]) {
      assert ItemOk(db, db.items[i]);
    }
  }

  lemma ItemInserted(db: Db, id: nat, m: nat)
    requires Good(db) && id < |db.quals| && db.quals[id].member == m && m < |db.members|
    ensures var next := db.(items := InsertItem(db.items, id, m, None));
            Good(next) && Evolves(db, next)
  {
    hide RowsOk, SequencesOk;
    var next := db.(items := InsertItem(db.items, id, m, None));
    Frame(db, next);
    forall t | 0 <= t < |db.tasks| ensures TaskOk(next, next.tasks[t]) {
      assert TaskOk(db, db.tasks[t]);
    }
    forall i | 0 <= i < |db.items| ensures ItemOk(next, next.items[i]) {
      assert ItemOk(db, db.items[i]);
    }
  }

  lemma EditKeeps(a: Db, b: Db)
    requires Good(a) && BusinessEdit(a, b)
    ensures Good(b) && Evolves(a, b)
  {
    hide EditLogged;
    forall t | 0 <= t < |a.tasks| ensures TaskOk(b, b.tasks[t]) {
      assert TaskOk(a, a.tasks[t]);
    }
    forall i | 0 <= i < |a.items| ensures ItemOk(b, b.items[i]) {
      assert ItemOk(a, a.items[i]);
    }
    assert SequencesOk(b);
  }

  // ----- steps and runs -----

  lemma PlansOnly(db: Db, plans: map<(nat, nat), PlanRow>)
    requires Good(db)
    ensures Good(db.(plans := plans)) && Evolves(db, db.(plans := plans))
  {
    hide RowsOk, SequencesOk;
    Frame(db, db.(plans := plans));
    ItemStatusesKeep(db, db.(plans := plans));
  }

  lemma TimePasses(db: Db, now: nat)
    requires Good(db) && db.now <= now
    ensures Good(db.(now := now)) && Evolves(db, db.(now := now))
  {
    hide RowsOk, SequencesOk;
    var next := db.(now := now);
    Frame(db, next);
    forall t | 0 <= t < |db.tasks| ensures TaskOk(next, next.tasks[t]) {
      assert TaskOk(db, db.tasks[t]);
    }
    forall i | 0 <= i < |db.items| ensures ItemOk(next, next.items[i]) {
      assert ItemOk(db, db.items[i]);
    }
  }

  lemma TaskMembersInScope(db: Db, t: nat)
    requires TasksOk(db) && t < |db.tasks|
    ensures MembersInScope(db, db.tasks[t].scope, db.tasks[t].members)
  {
    assert TaskOk(db, db.tasks[t]);
  }

  /** What a step does to the tables. */
  lemma StepKeepsTables(s: Sys, step: Step)
    requires Inv(s) && Enabled(s, step)
    ensures Good(Next(s, step).db) && Evolves(s.db, Next(s, step).db)
  {
    hide RowsOk, TasksOk, ItemsOk, SequencesOk, Evolves, CreateTask, CancelTask, SetPaused, SaveQualification;
    hide BusinessEdit, LeaseFree, HasLiveTask, ClaimableItem, Claim, Process, Accepts, Commit, FinishFailure;
    hide TicketOk, RequestOk, DistinctCodes, MembersInScope;
    var db := s.db;
    EvolvesReflexive(db);
    match step
    case Submit(sid, ids, mode, key, actor) =>
      CreateKeeps(db, sid, ids, mode, if key.Some? then Some(CallerKey(key.value)) else None, actor);
    case Cancel(t) => CancelKeeps(db, t);
    case Retry(t, key, actor) =>
      TaskMembersInScope(db, t);
      CreateKeeps(db, db.tasks[t].scope, db.tasks[t].members, db.tasks[t].mode, Some(CallerKey(key)), actor);
    case Pause(sid, paused, expected) => PauseKeeps(db, sid, paused, expected);
    case Screen(q) => ScreenKeeps(db, q);
    case Edit(b) => EditKeeps(db, b);
    case Tick(now) => TimePasses(db, now);
    case TakeWork(w, sid) => ClaimKeeps(db, sid);
    case Prepare(w, pin, authorized) =>
      assert WorkerOk(db, s.workers[w]);
      ProcessKeeps(db, s.workers[w].ticket, pin, authorized);
    case Answer(w, response, failure) => PlansOnly(db, Next(s, step).db.plans);
    case Conclude(w, authorized) =>
      var x := s.workers[w];
      assert WorkerOk(db, x);
      CommitKeeps(db, x.ticket, x.request, x.decisions, authorized);
    case Interrupt(_, _) =>
    case Abandon(w) =>
      assert WorkerOk(db, s.workers[w]);
      FailureKeeps(db, s.workers[w].ticket, s.workers[w].failure);
    case Crash(w) =>
  }

  /** The worker that took the step holds a sound ticket, request and plan afterwards. */
  lemma StepKeepsWorker(s: Sys, step: Step, w: nat)
    requires Inv(s) && Enabled(s, step) && w in Next(s, step).workers
    requires Evolves(s.db, Next(s, step).db)
    ensures WorkerOk(Next(s, step).db, Next(s, step).workers[w])
  {
    hide RowsOk, TasksOk, ItemsOk, SequencesOk, Evolves, CreateTask, CancelTask, RetryTask, SetPaused, SaveQualification;
    hide BusinessEdit, Claim, Process, Commit, FinishFailure, TicketOk, RequestOk, DistinctCodes, MembersInScope;
    hide Plan, Fenced, LeaseHeld;
    hide LeaseFree, HasLiveTask, ClaimableItem;
    var db, next := s.db, Next(s, step);
    if w in s.workers {
      assert WorkerOk(db, s.workers[w]);
      WorkersSurvive(db, next.db, s.workers[w]);
    }
    if step.TakeWork? {
      ClaimKeeps(db, step.scope);
    } else if step.Prepare? {
      assert WorkerOk(db, s.workers[step.worker]);
      var tk := s.workers[step.worker].ticket;
      ProcessKeeps(db, tk, step.pin, step.authorized);
      assert w in s.workers && next.db == Process(db, tk, step.pin, step.authorized).0;
      if w != step.worker {
        assert next.workers[w] == s.workers[w];
      } else {
        assert TicketOk(next.db, tk) && next.workers[w].ticket == tk;
        assert next.workers[w].Waiting4Kernel? ==> RequestOk(next.db, tk, next.workers[w].request);
        assert !next.workers[w].Accepted?;
      }
    } else if step.Answer? {
      assert w in s.workers;
      if w != step.worker {
        assert next.workers[w] == s.workers[w];
      } else {
        var x := s.workers[w];
        assert TicketOk(next.db, x.ticket) && RequestOk(next.db, x.ticket, x.request);
        assert next.workers[w].Accepted? ==> next.workers[w].decisions == Plan(next.workers[w].request.snapshot);
      }
    } else {
      assert w in s.workers;
      assert next.workers[w].ticket == s.workers[w].ticket;
      assert next.workers[w] == s.workers[w] || next.workers[w].Aborting?;
    }
  }

  lemma StepKeepsInv(s: Sys, step: Step)
    requires Inv(s) && Enabled(s, step)
    ensures Inv(Next(s, step))
  {
    hide RowsOk, TasksOk, ItemsOk, SequencesOk, Evolves, WorkerOk, Enabled, Next;
    StepKeepsTables(s, step);
    forall w | w in Next(s, step).workers ensures WorkerOk(Next(s, step).db, Next(s, step).workers[w]) {
      StepKeepsWorker(s, step, w);
    }
  }

  /** A run: every step is enabled where it is taken. */
  ghost predicate Runs(s: Sys, steps: seq<Step>)
    decreases |steps|
  {
    steps == [] || (Enabled(s, steps[0]) && Runs(Next(s, steps[0]), steps[1..]))
  }

  ghost function After(s: Sys, steps: seq<Step>): Sys
    requires Runs(s, steps)
    decreases |steps|
  {
    if steps == [] then s else After(Next(s, steps[0]), steps[1..])
  }

  lemma {:induction false} RunKeepsInv(s: Sys, steps: seq<Step>)
    requires Inv(s) && Runs(s, steps)
    ensures Inv(After(s, steps))
    decreases |steps|
  {
    hide Inv, Enabled, Next;
    if steps != [] {
      StepKeepsInv(s, steps[0]);
      RunKeepsInv(Next(s, steps[0]), steps[1..]);
    }
  }

  /** A database in which nothing has been allocated yet starts in the invariant. */
  lemma FreshSystemOk(db: Db)
    requires RowsOk(db) && db.nextToken > 0 && db.tasks == [] && db.items == []
    requires forall s | 0 <= s < |db.scopes| :: db.scopes[s].nextSequence >= 1 && db.scopes[s].leaseToken < db.nextToken
    requires forall a | 0 <= a < |db.attempts| :: db.attempts[a].target == None
    ensures Inv(Sys(db, map[]))
  {}

  /** In every reachable state the sequences of a scope's targets are distinct and below its next one. */
  lemma SequencesStayDistinct(s: Sys, steps: seq<Step>, a: nat, b: nat)
    requires Inv(s) && Runs(s, steps) && a < b < |After(s, steps).db.attempts|
    requires After(s, steps).db.attempts[a].target.Some? && After(s, steps).db.attempts[b].target.Some?
    requires After(s, steps).db.attempts[a].target.value.scope == After(s, steps).db.attempts[b].target.value.scope
    ensures var db := After(s, steps).db;
            var x, y := db.attempts[a].target.value, db.attempts[b].target.value;
            x.sequence != y.sequence && x.scope < |db.scopes| && x.sequence < db.scopes[x.scope].nextSequence
  {
    hide Runs, After, RowsOk, TasksOk, ItemsOk, WorkerOk;
    RunKeepsInv(s, steps);
  }
}
