/** No wake-up is lost: in every run, whoever waits although no change was logged since cannot be
    assigned. */
module AllocationWaiting {
  import opened Orders
  import opened AllocationTypes
  import opened AllocationPolicy
  import opened AllocationCanonical
  import opened AllocationBatching
  import opened AllocationStore
  import opened AllocationProtocol
  import opened AllocationCommit
  import opened AllocationInvariants
  import opened AllocationSafety
  import opened AllocationLinearisation
  import opened AllocationFencing
  import opened AllocationWork
  import opened AllocationLedger
  import opened AllocationSeries

  // ----- who can be assigned -----

  /** The demand receives, all its required tags are held, and at least one tag matches. */
  ghost predicate Serves(tags: seq<Tag>, row: DemandRow) {
    && row.reception.Receiving? && (forall c | c in row.required :: Holds(TagTable(tags), c))
    && (row.required != [] || exists c :: c in row.preferred && Holds(TagTable(tags), c))
  }

  ghost predicate Fits(tags: seq<Tag>, rows: seq<DemandRow>) { exists j :: 0 <= j < |rows| && Serves(tags, rows[j]) }

  function TagsOf(db: Db, m: nat): seq<Tag> {
    var q := Latest(db.quals, m);
    if q.Some? && q.value < |db.quals| then db.quals[q.value].tags else []
  }

  /** The member of the scope is valid, and some demand of the scope would take it. */
  ghost predicate Wants(db: Db, sid: nat, m: nat) {
    m < |db.members| && sid < |db.demands| && db.members[m].scope == sid && Valid(db, m) && Fits(TagsOf(db, m), db.demands[sid])
  }

  /** The demands are those of the rows, whatever their quantities. */
  ghost predicate OfRows(demands: seq<Demand>, rows: seq<DemandRow>) {
    |demands| == |rows| && forall j | 0 <= j < |rows| :: OfRow(demands[j], rows[j])
  }

  predicate OfRow(d: Demand, row: DemandRow) {
    d.demandId == row.demandId && d.reception == row.reception && d.required == row.required && d.preferred == row.preferred
  }

  /** Whether a member can be assigned does not depend on the quantities or the instant they are read. */
  lemma FitsMeans(db: Db, sid: nat, at: nat, m: nat, demands: seq<Demand>)
    requires m < |db.members| && Valid(db, m) && sid < |db.demands| && OfRows(demands, db.demands[sid])
    ensures AnyFeasible(SnapshotMember(db, sid, at, m), demands) <==> Fits(TagsOf(db, m), db.demands[sid])
  {
    hide Valid, CountedFor, TagTable, Holds;
    var x, rows, tags := SnapshotMember(db, sid, at, m), db.demands[sid], TagsOf(db, m);
    MemberFields(db, sid, at, m);
    forall j | 0 <= j < |rows| ensures Feasible(x, demands[j]) <==> Serves(tags, rows[j]) {
      OneServes(x, demands[j], rows[j], rows, j);
    }
    if d :| d in demands && Feasible(x, d) {
      var j :| 0 <= j < |demands| && demands[j] == d;
      assert Serves(tags, rows[j]);
    }
    if j :| 0 <= j < |rows| && Serves(tags, rows[j]) {
      assert demands[j] in demands && Feasible(x, demands[j]);
    }
  }

  lemma MemberFields(db: Db, sid: nat, at: nat, m: nat)
    requires m < |db.members| && Valid(db, m) && sid < |db.demands|
    ensures var x := SnapshotMember(db, sid, at, m);
            && x.tags == TagsOf(db, m) && x.allowed == Each2(db.demands[sid]) && x.memberId == m && x.createdAt == db.members[m].createdAt
  {
    hide CountedFor, Assigned, OnCurrentResume;
    LatestIsQualification(db.quals, m);
  }

  lemma OneServes(x: Member, d: Demand, row: DemandRow, rows: seq<DemandRow>, j: nat)
    requires j < |rows| && rows[j] == row && x.allowed == Each2(rows) && OfRow(d, row)
    ensures Feasible(x, d) <==> Serves(x.tags, row)
  {
    hide TagTable, Holds;
    var table := TagTable(x.tags);
    assert x.allowed[j] == d.demandId;
    if row.required != [] {
      assert row.required[0] in Matched(table, d);
    }
    if c :| c in Matched(table, d) {
      assert c in d.required || (c in d.preferred && Holds(table, c));
    }
    if c :| c in row.preferred && Holds(table, c) {
      assert c in Matched(table, d);
    }
  }

  // ----- what rests -----

  /** The item waits since a finished execution, and unless a change was logged later, its member cannot be
      assigned. */
  ghost predicate RestsWell(db: Db, i: Item) {
    && i.task.Some? && i.task.value < |db.tasks| && db.tasks[i.task.value].status == TaskCompleted
    && i.member < |db.members|
    && var sid := db.members[i.member].scope;
       && sid < |db.scopes| && i.observed <= Revision(db, sid)
       && (i.observed == Revision(db, sid) ==> !Wants(db, sid, i.member))
  }

  ghost predicate Rested(db: Db) {
    forall i | 0 <= i < |db.items| && db.items[i].status == ItemWaiting :: RestsWell(db, db.items[i])
  }

  /** Nobody waits who did not wait before; finished tasks, scopes and members stay, and revisions do not fall. */
  ghost predicate NoneWaits(a: Db, b: Db) {
    && (forall j | 0 <= j < |b.items| && b.items[j].status == ItemWaiting :: j < |a.items| && b.items[j] == a.items[j])
    && GoesOn(a, b)
  }

  ghost predicate GoesOn(a: Db, b: Db) {
    && |a.tasks| <= |b.tasks| && |a.scopes| <= |b.scopes| && |a.members| <= |b.members|
    && (forall t | 0 <= t < |a.tasks| && a.tasks[t].status == TaskCompleted :: b.tasks[t].status == TaskCompleted)
    && (forall m | 0 <= m < |a.members| :: b.members[m].scope == a.members[m].scope)
    && forall s | 0 <= s < |a.scopes| :: Revision(a, s) <= Revision(b, s)
  }

  /** Whoever can be assigned afterwards could before, unless a change was logged. */
  ghost predicate NoneGains(a: Db, b: Db) {
    forall s, m | 0 <= s < |a.scopes| && |b.scopes| >= |a.scopes| && Revision(b, s) == Revision(a, s) && Wants(b, s, m) :: Wants(a, s, m)
  }

  lemma RestedOn(a: Db, b: Db)
    requires Rested(a) && NoneWaits(a, b) && NoneGains(a, b)
    ensures Rested(b)
  {
    hide Wants, Revision;
    forall j | 0 <= j < |b.items| && b.items[j].status == ItemWaiting ensures RestsWell(b, b.items[j]) {
      assert RestsWell(a, a.items[j]);
    }
  }

  lemma NoneWaitsOn(a: Db, b: Db, c: Db)
    requires NoneWaits(a, b) && NoneWaits(b, c)
    ensures NoneWaits(a, c)
  {
    hide Revision;
  }

  lemma NoneWaitsNot(db: Db)
    ensures NoneWaits(db, db)
  {
    hide Revision;
  }

  lemma {:induction false} ChangesOn(changes: seq<nat>, more: seq<nat>, s: nat)
    ensures LastChange(changes + more, s) >= LastChange(changes, s)
    ensures LastChange(changes, s) <= |changes|
    ensures (exists k :: 0 <= k < |more| && more[k] == s) ==> LastChange(changes + more, s) > |changes|
    ensures s !in more ==> LastChange(changes + more, s) == LastChange(changes, s)
    decreases |changes| + |more|
  {
    if more != [] {
      var n := |more| - 1;
      assert (changes + more)[..|changes + more| - 1] == changes + more[..n] && more[n] in more;
      ChangesOn(changes, more[..n], s);
      assert forall x | x in more[..n] :: x in more;
      if k :| 0 <= k < |more| && more[k] == s {
        assert k < n ==> more[..n][k] == s;
      }
    } else {
      assert changes + more == changes;
      if changes != [] {
        ChangesOn(changes[..|changes| - 1], [], s);
      }
    }
  }

  /** Revisions only grow when scopes keep their own revision or raise it and the log grows. */
  lemma RevisionsOn(a: Db, b: Db)
    requires |a.scopes| <= |b.scopes| && |a.changes| <= |b.changes| && b.changes[..|a.changes|] == a.changes
    requires forall s | 0 <= s < |a.scopes| :: a.scopes[s].revision <= b.scopes[s].revision
    ensures forall s | 0 <= s < |a.scopes| :: Revision(a, s) <= Revision(b, s)
  {
    hide LastChange;
    forall s | 0 <= s < |a.scopes| ensures Revision(a, s) <= Revision(b, s) {
      assert b.changes == a.changes + b.changes[|a.changes|..];
      ChangesOn(a.changes, b.changes[|a.changes|..], s);
    }
  }

  lemma RevisionsStay(a: Db, b: Db)
    requires |a.scopes| == |b.scopes| && b.changes == a.changes
    requires forall s | 0 <= s < |a.scopes| :: a.scopes[s].revision == b.scopes[s].revision
    ensures forall s | 0 <= s < |a.scopes| :: Revision(a, s) == Revision(b, s)
  {
    hide LastChange;
  }

  // ----- the transactions -----

  /** No item begins to wait. */
  ghost predicate WaitsKept(a: seq<Item>, b: seq<Item>) {
    forall j | 0 <= j < |b| && b[j].status == ItemWaiting :: j < |a| && b[j] == a[j]
  }

  lemma {:induction false} InsertedWaits(items: seq<Item>, quals: seq<Qualification>, ids: seq<nat>, task: nat)
    ensures WaitsKept(items, InsertItems(items, quals, ids, task))
  {
    hide HasActive;
    if ids != [] {
      InsertedWaits(items, quals, ids[..|ids| - 1], task);
    }
  }

  lemma CreateWaits(db: Db, sid: nat, ids: seq<nat>, mode: Mode, key: Option<Key>, actor: Option<nat>)
    requires sid < |db.scopes|
    ensures NoneWaits(db, CreateTask(db, sid, ids, mode, key, actor).0)
  {
    hide FindKey, Revision, InsertItems;
    var next := CreateTask(db, sid, ids, mode, key, actor).0;
    InsertedWaits(db.items, db.quals, ids, |db.tasks|);
    RevisionsStay(db, next);
  }

  lemma RecoverWaits(db: Db, sid: nat)
    requires sid < |db.scopes|
    ensures NoneWaits(db, Recover(db, sid))
  {
    hide Revision;
    var next := Recover(db, sid);
    RevisionsStay(db, next);
    forall t | 0 <= t < |db.tasks| && db.tasks[t].status == TaskCompleted ensures next.tasks[t].status == TaskCompleted {
      assert next.tasks[t] == RecoverTask(sid)(db.tasks[t]);
    }
  }

  lemma WakeWaits(db: Db, sid: nat)
    requires sid < |db.scopes|
    ensures NoneWaits(db, Wake(db, sid))
  {
    hide Wakes;
    RevisionsStay(db, Wake(db, sid));
  }

  lemma GrantWaits(db: Db, sid: nat, t: nat)
    requires sid < |db.scopes| && t < |db.tasks| && db.tasks[t].status == TaskPending
    ensures NoneWaits(db, Grant(db, sid, t).0)
  {
    hide Revision;
    RevisionsStay(db, Grant(db, sid, t).0);
  }

  lemma ClaimWaits(db: Db, sid: nat)
    requires Good(db) && sid < |db.scopes|
    ensures NoneWaits(db, Claim(db, sid).0)
  {
    hide Recover, Wake, NextBatch, CreateTask, Grant, FirstPending, NoneWaits, RowsOk, TasksOk, ItemsOk, SequencesOk;
    var how := ClaimEndsSomehow(db, sid);
    var r := Recover(db, sid);
    RecoverWaits(db, sid);
    RecoverShape(db, sid);
    match how {
      case TakesPending(t) =>
        GrantWaits(r, sid, t);
        NoneWaitsOn(db, r, Grant(r, sid, t).0);
      case TakesBatch(ids) =>
        var w := Wake(r, sid);
        WakeWaits(r, sid);
        WakeShape(r, sid);
        CreateWaits(w, sid, ids, Execute, None, None);
        var c := CreateTask(w, sid, ids, Execute, None, None).0;
        CreatedTask(w, sid, ids, Execute, None, None);
        GrantWaits(c, sid, |w.tasks|);
        NoneWaitsOn(db, r, w);
        NoneWaitsOn(db, w, c);
        NoneWaitsOn(db, c, Grant(c, sid, |w.tasks|).0);
      case TakesNothing =>
        if !r.scopes[sid].paused {
          WakeWaits(r, sid);
          NoneWaitsOn(db, r, Wake(r, sid));
        }
    }
  }

  lemma CleanWaits(db: Db, ids: seq<nat>)
    ensures NoneWaits(db, Clean(db, ids))
  {
    hide Restated, Cleaned, Revision, CleanChanges;
    RevisionsOn(db, Clean(db, ids));
  }

  lemma CompleteWaits(db: Db, tk: Ticket)
    requires tk.scope < |db.scopes| && tk.task < |db.tasks|
    ensures NoneWaits(db, Complete(db, tk))
  {
    RevisionsStay(db, Complete(db, tk));
  }

  lemma ProcessWaits(db: Db, tk: Ticket, pin: nat, authorized: bool)
    ensures NoneWaits(db, Process(db, tk, pin, authorized).0)
  {
    hide Clean, Build, Canonical, Revision, Complete, CleanBlocked, Buildable, NoneWaits;
    NoneWaitsNot(db);
    if LeaseHeld(db, tk) && authorized && Buildable(db, tk) && !(tk.mode == Execute && CleanBlocked(db, tk.members)) {
      var after := if tk.mode == Execute then Clean(db, tk.members) else db;
      CleanWaits(db, tk.members);
      CleanShape(db, tk.members);
      CompleteWaits(after, tk);
      NoneWaitsOn(db, after, Complete(after, tk));
    }
  }

  lemma FailureWaits(db: Db, tk: Ticket, failure: Failure)
    ensures NoneWaits(db, FinishFailure(db, tk, failure))
  {
    hide Revision, DropPlans;
    RevisionsStay(db, FinishFailure(db, tk, failure));
  }

  lemma CancelWaits(db: Db, t: nat)
    requires t < |db.tasks| && db.tasks[t].scope < |db.scopes|
    ensures NoneWaits(db, CancelTask(db, t))
  {
    hide Revision, DropPlans, PlanKeys;
    RevisionsStay(db, CancelTask(db, t));
  }

  lemma PauseWaits(db: Db, sid: nat, paused: bool, expected: nat)
    requires sid < |db.scopes|
    ensures NoneWaits(db, SetPaused(db, sid, paused, expected))
  {
    hide Revision, DropPlans, PlanKeys;
    var next := SetPaused(db, sid, paused, expected);
    RevisionsOn(db, next);
    forall t | 0 <= t < |db.tasks| && db.tasks[t].status == TaskCompleted ensures next.tasks[t].status == TaskCompleted {
      assert next == db || next.tasks[t] == PauseTask(sid)(db.tasks[t]);
    }
  }

  lemma ScreenWaits(db: Db, q: Qualification)
    ensures NoneWaits(db, SaveQualification(db, q))
  {
    hide Revision, FindQualification, HasActive;
    RevisionsStay(db, SaveQualification(db, q));
  }

  lemma EditWaits(a: Db, b: Db)
    requires BusinessEdit(a, b)
    ensures NoneWaits(a, b)
  {
    hide Revision, EditLogged, RowsOk, AttemptsKept;
    assert forall s | 0 <= s < |a.scopes| :: b.scopes[s] == b.scopes[..|a.scopes|][s];
    RevisionsOn(a, b);
  }

  lemma ElseWaits(a: Db, b: Db)
    requires b.tasks == a.tasks && b.scopes == a.scopes && b.items == a.items && b.members == a.members && b.changes == a.changes
    ensures NoneWaits(a, b)
  {
    RevisionsStay(a, b);
  }

  /** Apart from the commit of an execution, no step makes an item wait. */
  lemma StepWaits(s: Sys, step: Step)
    requires Inv(s) && Enabled(s, step) && !CommitsExecution(s, step)
    ensures NoneWaits(s.db, Next(s, step).db)
  {
    hide RowsOk, TasksOk, ItemsOk, SequencesOk, NoneWaits, CreateTask, CancelTask, SetPaused, SaveQualification, Claim;
    hide BusinessEdit, LeaseFree, HasLiveTask, ClaimableItem, Process, Accepts, Commit, FinishFailure, TicketOk;
    hide RequestOk, Plan, DistinctCodes, MembersInScope;
    var db, next := s.db, Next(s, step).db;
    NoneWaitsNot(db);
    match step
    case Submit(sid, ids, mode, key, actor) => CreateWaits(db, sid, ids, mode, if key.Some? then Some(CallerKey(key.value)) else None, actor);
    case Cancel(t) => CancelWaits(db, t);
    case Retry(t, key, actor) => CreateWaits(db, db.tasks[t].scope, db.tasks[t].members, db.tasks[t].mode, Some(CallerKey(key)), actor);
    case Pause(sid, paused, expected) => PauseWaits(db, sid, paused, expected);
    case Screen(q) => ScreenWaits(db, q);
    case Edit(b) => EditWaits(db, b);
    case Tick(now) => ElseWaits(db, next);
    case TakeWork(_, sid) => ClaimWaits(db, sid);
    case Prepare(w, pin, authorized) => ProcessWaits(db, s.workers[w].ticket, pin, authorized);
    case Answer(_, _, _) => ElseWaits(db, next);
    case Conclude(w, authorized) =>
      assert WorkerOk(db, s.workers[w]);
      SimulationWaits(db, s.workers[w], authorized);
    case Interrupt(_, _) =>
    case Abandon(w) => FailureWaits(db, s.workers[w].ticket, s.workers[w].failure);
    case Crash(_) =>
  }

  lemma SimulationWaits(db: Db, x: Worker, authorized: bool)
    requires Good(db) && x.Accepted? && WorkerOk(db, x) && x.request.snapshot.at >= 0
    requires var r := Commit(db, x.ticket, x.request, x.decisions, authorized); !(r.1.CommitDone? && x.ticket.mode == Execute)
    ensures NoneWaits(db, Commit(db, x.ticket, x.request, x.decisions, authorized).0)
  {
    hide Revision, Build, Canonical, Buildable, Plan, RequestOk, ApplyDecisions, MaxSequence, RowsOk, TasksOk;
    hide SequencesOk, WellKeyed;
    var tk := x.ticket;
    var r := Commit(db, tk, x.request, x.decisions, authorized);
    NoneWaitsNot(db);
    if r.1.CommitDone? {
      SimulationAppliesNothing(db, tk, x.decisions);
      SimulationLeasesNothing(db, tk);
      ObservesNothing(db, tk);
      RevisionsStay(db, r.0);
      assert r.0.items == db.items;
    }
  }

  lemma ObservesNothing(db: Db, tk: Ticket)
    requires ItemsOk(db) && TicketOk(db, tk) && tk.mode == Simulate
    ensures forall revision :: Update(db.items, ObserveItem(tk.task, revision)) == db.items
  {
    forall i | 0 <= i < |db.items| && db.items[i].status == ItemWaiting ensures db.items[i].task != Some(tk.task) {
      assert ItemOk(db, db.items[i]);
    }
  }

  // ----- nobody gains -----

  lemma PassesValid(db: Db, next: Db, picks: seq<Decision>, m: nat)
    requires Passes(View(db), View(next), picks) && m < |next.members|
    ensures |next.members| == |db.members| && next.quals == db.quals && next.demands == db.demands && next.members[m].scope == db.members[m].scope
    ensures Valid(next, m) <==> Valid(db, m) && !PickedMember(picks, m)
  {
    hide View, Valid, PickedMember, RowsSame;
    ViewRows(db);
    ViewRows(next);
    QualsSeen(db);
    QualsSeen(next);
    ValidAlike(db, m);
    ValidAlike(next, m);
  }

  /** What a step that is neither an edit nor a screening does to the members' validity. */
  lemma StepPasses(s: Sys, step: Step) returns (picks: seq<Decision>)
    requires Inv(s) && Enabled(s, step) && !step.Edit? && !step.Screen?
    ensures Passes(View(s.db), View(Next(s, step).db), picks)
  {
    hide Inv, Next, Enabled, View, AtomicStep, CommitsExecution, Passes, Clean, RowsOk, PlannedNow, AllocationStep;
    var b, c := View(s.db), View(Next(s, step).db);
    var act := StepRefines(s, step);
    InvRows(s);
    ViewRowsOk(s.db);
    picks := ActPasses(b, act, c);
  }

  lemma ActPasses(b: Db, act: AtomicAct, c: Db) returns (picks: seq<Decision>)
    requires RowsOk(b) && AtomicStep(b, act, c) && !act.Outside? && !act.Screened?
    ensures Passes(b, c, picks)
  {
    hide PlannedNow, Clean, RowsOk, Passes, AllocationStep;
    match act {
      case Stutter =>
        picks := [];
        SamePasses(b);
      case Restating(ids) =>
        picks := [];
        RestatingPasses(b, ids);
      case Allocation(sid, ids, at, now) =>
        StepBuildable(b, c, sid, ids, at, now);
        picks := PlannedNow(b, sid, ids, at);
        AllocationPasses(b, c, sid, ids, at, now);
    }
  }

  lemma SamePasses(b: Db)
    requires RowsOk(b)
    ensures Passes(b, b, [])
  {
    hide Latest, Assigned;
  }

  /** The worker that concludes. */
  ghost predicate Concludes(s: Sys, step: Step, x: Worker) {
    step.Conclude? && step.worker in s.workers && x == s.workers[step.worker] && x.Accepted?
  }

  lemma ConcludesOne(s: Sys, step: Step) returns (x: Worker)
    requires Enabled(s, step) && CommitsExecution(s, step)
    ensures Concludes(s, step, x) && x == s.workers[step.worker]
  {
    hide Commit;
    x := s.workers[step.worker];
  }

  /** After a commit exactly the picked members are no longer valid. */
  lemma CommitPasses(s: Sys, step: Step, x: Worker)
    requires Concludes(s, step, x) && Enabled(s, step) && CommitsExecution(s, step) && Inv(s)
    ensures Passes(View(s.db), View(Next(s, step).db), Picks(x.decisions))
  {
    hide Inv, Next, Enabled, View, Passes, RowsOk, PlannedNow, AllocationStep, Good, WorkerOk, Commit;
    hide CommitsExecution, Picks, TicketOk, RequestOk, Plan, AllocatedAtomically;
    CommitOf(s, step);
    CommitParts(s.db, x);
    var b, c, tk, at := View(s.db), View(Next(s, step).db), x.ticket, x.request.snapshot.at;
    var act := CommitAct(s.db, tk, x.request, x.decisions, step.authorized);
    CommitIsAtomicAllocation(s.db, tk, x.request, x.decisions, step.authorized);
    InvRows(s);
    ViewRowsOk(s.db);
    StepBuildable(b, c, tk.scope, tk.members, at, s.db.now);
    AllocationPasses(b, c, tk.scope, tk.members, at, s.db.now);
  }

  lemma CommitParts(db: Db, x: Worker)
    requires WorkerOk(db, x) && x.Accepted?
    ensures TicketOk(db, x.ticket) && RequestOk(db, x.ticket, x.request) && x.decisions == Plan(x.request.snapshot)
  {}

  lemma StepNoneGains(s: Sys, step: Step)
    requires Inv(s) && Enabled(s, step) && !step.Edit? && !step.Screen?
    ensures forall sid, m :: Wants(Next(s, step).db, sid, m) ==> Wants(s.db, sid, m)
  {
    hide Inv, Next, Enabled, View, Passes, Valid, Fits, CommitsExecution, PlannedNow;
    var picks := StepPasses(s, step);
    forall sid, m | Wants(Next(s, step).db, sid, m) ensures Wants(s.db, sid, m) {
      PassesValid(s.db, Next(s, step).db, picks, m);
    }
  }

  lemma GainsNot(a: Db, b: Db)
    requires forall sid, m :: Wants(b, sid, m) ==> Wants(a, sid, m)
    ensures NoneGains(a, b)
  {
    hide Wants, Revision;
  }

  // ----- who waits after a commit -----

  /** Only work leased to the task begins to wait, and nothing becomes active. */
  ghost predicate WaitsAfterLoop(a: seq<Item>, b: seq<Item>, task: nat) {
    && |b| == |a|
    && forall i | 0 <= i < |a| ::
         && b[i] == a[i].(status := b[i].status)
         && (Active(b[i]) ==> b[i] == a[i])
         && (b[i].status == ItemWaiting ==> b[i] == a[i] || (a[i].status == ItemLeased && a[i].task == Some(task)))
  }

  lemma {:induction false} LoopWaits(db: Db, tk: Ticket, ds: seq<Decision>)
    requires tk.mode == Execute && ApplyDecisions(db, tk, ds).Some?
    ensures WaitsAfterLoop(db.items, ApplyDecisions(db, tk, ds).value.items, tk.task)
  {
    if ds != [] {
      var n := |ds| - 1;
      LoopWaits(db, tk, ds[..n]);
      var mid, next := ApplyDecisions(db, tk, ds[..n]).value, ApplyDecisions(db, tk, ds).value;
      OneWaits(mid.items, next.items, tk.task, ds[n]);
      WaitsTwice(db.items, mid.items, next.items, tk.task);
    }
  }

  lemma OneWaits(a: seq<Item>, b: seq<Item>, task: nat, d: Decision)
    requires b == if d.action == Wait then Update(a, WaitItem(d.memberId, task)) else Update(a, SettleItem(d.memberId))
    ensures WaitsAfterLoop(a, b, task)
  {}

  lemma WaitsTwice(a: seq<Item>, b: seq<Item>, c: seq<Item>, task: nat)
    requires WaitsAfterLoop(a, b, task) && WaitsAfterLoop(b, c, task)
    ensures WaitsAfterLoop(a, c, task)
  {
    forall i | 0 <= i < |a|
      ensures c[i] == a[i].(status := c[i].status) && (Active(c[i]) ==> c[i] == a[i])
      ensures c[i].status == ItemWaiting ==> c[i] == a[i] || (a[i].status == ItemLeased && a[i].task == Some(task))
    {
      if Active(c[i]) {
        assert c[i] == b[i];
      }
    }
  }

  /** What the commit of an execution does to the items. */
  ghost predicate ItemsCommitted(db: Db, next: Db, tk: Ticket)
    requires tk.scope < |next.scopes|
  {
    && |next.items| == |db.items|
    && forall i | 0 <= i < |db.items| ::
         && next.items[i].member == db.items[i].member && next.items[i].qualification == db.items[i].qualification
         && (Active(next.items[i]) ==> next.items[i] == db.items[i])
         && (next.items[i].status == ItemWaiting ==>
               if db.items[i].status == ItemLeased
               then db.items[i].task == Some(tk.task) && next.items[i] == db.items[i].(status := ItemWaiting, observed := Revision(next, tk.scope))
               else next.items[i] == db.items[i])
  }

  lemma CommitItems(db: Db, x: Worker, authorized: bool, next: Db)
    requires Good(db) && x.Accepted? && WorkerOk(db, x) && x.ticket.mode == Execute && x.request.snapshot.at >= 0 && Rested(db)
    requires Commit(db, x.ticket, x.request, x.decisions, authorized) == (next, CommitDone)
    ensures x.ticket.scope < |next.scopes| && ItemsCommitted(db, next, x.ticket) && GoesOn(db, next)
  {
    hide Plan, Build, Canonical, Buildable, RowsOk, TasksOk, ItemsOk, SequencesOk, ApplyDecisions, MaxSequence;
    hide RequestOk, TicketOk, Settle, Wants, Revision;
    var tk, ds := x.ticket, x.decisions;
    var applied := ApplyDecisions(db, tk, ds).value;
    LoopWaits(db, tk, ds);
    LoopMembers(db, x);
    SettledItems(applied, tk, MaxSequence(ds));
    RevisionsOn(db, next);
    TasksAfterSettle(applied, tk, MaxSequence(ds));
    forall i | 0 <= i < |db.items| && db.items[i].status == ItemWaiting ensures db.items[i].task != Some(tk.task) {
      assert RestsWell(db, db.items[i]);
    }
    CommittedFrom(db, applied, next, tk);
  }

  /** Settling the rows after the loop: the task's waiting items are marked with the new revision. */
  ghost predicate Marked(applied: Db, next: Db, tk: Ticket)
    requires tk.scope < |next.scopes|
  {
    next.items == Update(applied.items, ObserveItem(tk.task, Revision(next, tk.scope)))
  }

  lemma SettledItems(applied: Db, tk: Ticket, top: int)
    requires tk.scope < |applied.scopes| && tk.task < |applied.tasks| && (tk.task, tk.generation) in applied.plans && tk.mode == Execute
    ensures var next := Settle(applied, tk, top);
            && |next.scopes| == |applied.scopes| && Marked(applied, next, tk)
            && next.changes == applied.changes && next.members == applied.members
            && forall s | 0 <= s < |applied.scopes| :: applied.scopes[s].revision <= next.scopes[s].revision
  {
    hide LastChange;
    var next := Settle(applied, tk, top);
    var adv := applied.(scopes := applied.scopes[tk.scope := Advance(applied.scopes[tk.scope], top)]);
    assert Revision(next, tk.scope) == Revision(adv, tk.scope);
  }

  lemma TasksAfterSettle(applied: Db, tk: Ticket, top: int)
    requires tk.scope < |applied.scopes| && tk.task < |applied.tasks| && (tk.task, tk.generation) in applied.plans
    ensures var next := Settle(applied, tk, top);
            && |next.tasks| == |applied.tasks|
            && next.tasks[tk.task] == applied.tasks[tk.task].(status := TaskCompleted)
            && forall t | 0 <= t < |applied.tasks| && t != tk.task :: next.tasks[t] == applied.tasks[t]
  {
    hide Revision, ObserveItem, ReturnItem, Update;
  }

  /** The decision loop keeps tasks and scopes, the members' scopes, and what the log says already. */
  lemma LoopMembers(db: Db, x: Worker)
    requires Good(db) && x.Accepted? && WorkerOk(db, x) && x.ticket.mode == Execute && x.request.snapshot.at >= 0
    requires ApplyDecisions(db, x.ticket, x.decisions).Some? && Buildable(db, x.ticket)
    requires Canonical(Build(db, x.ticket, x.request.snapshot.at, Revision(db, x.ticket.scope))) == x.request.hash
    ensures var applied := ApplyDecisions(db, x.ticket, x.decisions).value;
            && |applied.members| == |db.members| && (forall m | 0 <= m < |db.members| :: applied.members[m].scope == db.members[m].scope)
            && |db.changes| <= |applied.changes| && applied.changes[..|db.changes|] == db.changes
  {
    hide Plan, Build, Canonical, Buildable, RowsOk, TasksOk, ItemsOk, SequencesOk, RequestOk, TicketOk, Executable;
    hide ApplyDecisions, TouchedBy;
    CommitSeen(db, x);
    ApplyMembers(db, x.ticket, x.decisions);
    LogGrows(db, x.ticket, x.decisions);
  }

  lemma CommitSeen(db: Db, x: Worker)
    requires Good(db) && x.Accepted? && WorkerOk(db, x) && x.request.snapshot.at >= 0 && Buildable(db, x.ticket)
    requires Canonical(Build(db, x.ticket, x.request.snapshot.at, Revision(db, x.ticket.scope))) == x.request.hash
    ensures Executable(db, x.decisions)
  {
    hide Plan, Build, Canonical, Buildable, RowsOk, TasksOk, ItemsOk, SequencesOk, TicketOk, Executable, LeasedCovered;
    CommitPlansCurrentState(db, x.ticket, x.request, x.decisions);
  }

  lemma {:induction false} LogGrows(db: Db, tk: Ticket, ds: seq<Decision>)
    requires ApplyDecisions(db, tk, ds).Some?
    ensures var c := ApplyDecisions(db, tk, ds).value.changes; |db.changes| <= |c| && c[..|db.changes|] == db.changes
  {
    hide TouchedScopes;
    if ds != [] {
      LogGrows(db, tk, ds[..|ds| - 1]);
    }
  }

  lemma CommittedFrom(db: Db, applied: Db, next: Db, tk: Ticket)
    requires tk.scope < |next.scopes| && WaitsAfterLoop(db.items, applied.items, tk.task) && Marked(applied, next, tk)
    requires forall i | 0 <= i < |db.items| && db.items[i].status == ItemWaiting :: db.items[i].task != Some(tk.task)
    ensures ItemsCommitted(db, next, tk)
  {
    hide Revision;
    var revision := Revision(next, tk.scope);
    forall i | 0 <= i < |db.items| ensures next.items[i] == ObserveItem(tk.task, revision)(applied.items[i]) {}
  }

  // ----- a commit leaves nobody behind who could be assigned -----

  /** Whoever of the task could be assigned was picked. */
  lemma CommitPicksWanted(db: Db, x: Worker, m: nat)
    requires Good(db) && x.Accepted? && WorkerOk(db, x) && x.request.snapshot.at >= 0
    requires Buildable(db, x.ticket) && x.decisions == Plan(Found(db, x))
    requires m in x.ticket.members && Wants(db, x.ticket.scope, m)
    ensures PickedMember(Picks(x.decisions), m)
  {
    hide RowsOk, TasksOk, ItemsOk, SequencesOk, TicketOk, RequestOk, Plan, Picks, SortBy, Run, Buildable, Build;
    hide Found, SnapshotMember, Valid, Fits, SnapshotMembers, AnyFeasible, Lineup;
    var f, sid, at := Found(db, x), x.ticket.scope, x.request.snapshot.at;
    FoundIs(db, x);
    FoundDemands(db, x);
    SnapshotMembersListed(db, sid, at, x.ticket.members, |db.members|);
    FitsMeans(db, sid, at, m, f.demands);
    InLineup(f);
    MemberIdKept(db, sid, at, m);
    PlanRuns(f);
    FeasibleIsPicked(Lineup(f), f.demands, Opening(f), SnapshotMember(db, sid, at, m));
  }

  lemma PlanRuns(s: Snapshot)
    ensures Plan(s) == Run(Lineup(s), s.demands, Opening(s)).0
  {}

  lemma FoundDemands(db: Db, x: Worker)
    requires x.Accepted? && Buildable(db, x.ticket) && x.request.snapshot.at >= 0
    ensures x.ticket.scope < |db.demands| && OfRows(Found(db, x).demands, db.demands[x.ticket.scope])
  {
    hide SnapshotMembers, Revision, Suppliers, LastSequence;
  }

  lemma FoundPlanned(s: Sys, step: Step, x: Worker)
    requires Concludes(s, step, x) && Enabled(s, step) && CommitsExecution(s, step) && Inv(s)
    ensures Buildable(s.db, x.ticket) && x.request.snapshot.at >= 0 && x.decisions == Plan(Found(s.db, x))
  {
    hide Inv, Enabled, Next, RowsOk, TasksOk, ItemsOk, SequencesOk, Plan, Picks, Commit, Buildable, Build, TicketOk;
    hide RequestOk, CommitsExecution, NewAttempts, Numbered;
    CommitOf(s, step);
    CommitParts(s.db, x);
    CommittedRecords(s.db, x.ticket, x.request, x.decisions, step.authorized, Next(s, step).db);
  }

  lemma CommitRests(s: Sys, step: Step)
    requires Inv(s) && Enabled(s, step) && CommitsExecution(s, step) && Rested(s.db)
    ensures Rested(Next(s, step).db)
  {
    hide Inv, Next, Enabled, View, Passes, RowsOk, Commit, CommitsExecution, Picks, Plan, Wants, Revision, Valid;
    hide PickedMember, Fits, WorkerOk, Good;
    CommitOf(s, step);
    var x, db, next := s.workers[step.worker], s.db, Next(s, step).db;
    CommitItems(db, x, step.authorized, next);
    TaskEnds(db, x, step.authorized, next);
    FoundPlanned(s, step, x);
    CommitPasses(s, step, x);
    StepNoneGains(s, step);
    forall i | 0 <= i < |next.items| && next.items[i].status == ItemWaiting ensures RestsWell(next, next.items[i]) {
      var m := db.items[i].member;
      if db.items[i].status == ItemLeased {
        LeasedBy(db, x, i);
        if Wants(next, x.ticket.scope, m) {
          WantsInScope(next, x.ticket.scope, m);
          CommitPicksWanted(db, x, m);
          PassesValid(db, next, Picks(x.decisions), m);
        }
      } else {
        assert RestsWell(db, db.items[i]);
        StillRests(db, next, db.items[i]);
      }
    }
  }

  lemma WantsInScope(db: Db, sid: nat, m: nat)
    requires Wants(db, sid, m)
    ensures m < |db.members| && Valid(db, m)
  {
    hide Valid;
  }

  lemma StillRests(a: Db, b: Db, i: Item)
    requires RestsWell(a, i) && GoesOn(a, b) && forall sid, m :: Wants(b, sid, m) ==> Wants(a, sid, m)
    ensures RestsWell(b, i)
  {
    hide Wants, Revision;
  }

  lemma TaskEnds(db: Db, x: Worker, authorized: bool, next: Db)
    requires x.Accepted? && x.request.snapshot.at >= 0 && Commit(db, x.ticket, x.request, x.decisions, authorized) == (next, CommitDone)
    ensures x.ticket.task < |next.tasks| && next.tasks[x.ticket.task].status == TaskCompleted
  {
    hide Build, Canonical, Buildable, Revision, Settle, ApplyDecisions, MaxSequence;
    TasksAfterSettle(ApplyDecisions(db, x.ticket, x.decisions).value, x.ticket, MaxSequence(x.decisions));
  }

  /** Work leased to the task is for a member of it, in its scope. */
  lemma LeasedBy(db: Db, x: Worker, i: nat)
    requires Good(db) && WorkerOk(db, x) && i < |db.items| && db.items[i].status == ItemLeased && db.items[i].task == Some(x.ticket.task)
    ensures db.items[i].member in x.ticket.members && db.items[i].member < |db.members|
    ensures db.members[db.items[i].member].scope == x.ticket.scope && x.ticket.scope < |db.scopes|
  {
    hide RowsOk, SequencesOk, RequestOk, ActiveIsNewest;
    assert ItemOk(db, db.items[i]);
    assert TaskOk(db, db.tasks[x.ticket.task]);
  }

  // ----- screening and outside edits -----

  lemma {:induction false} LatestAppended(quals: seq<Qualification>, q: Qualification, m: nat)
    ensures m != q.member ==> Latest(quals + [q], m) == Latest(quals, m)
  {
    assert (quals + [q])[..|quals|] == quals;
  }

  /** After a screening none of the member's earlier work waits but that for the same qualification, and
      then nothing of the member changed. */
  lemma ScreenRests(db: Db, q: Qualification)
    requires Good(db) && q.member < |db.members| && Rested(db)
    ensures Rested(SaveQualification(db, q))
  {
    hide RowsOk, SequencesOk, TasksOk, FindQualification, HasActive, Revision, Wants;
    ScreenWaits(db, q);
    var next := SaveQualification(db, q);
    FoundQualification(db.quals, q.member, q.revision);
    RevisionsStay(db, next);
    forall i | 0 <= i < |next.items| && next.items[i].status == ItemWaiting ensures RestsWell(next, next.items[i]) {
      assert RestsWell(db, db.items[i]) && next.items[i] == db.items[i];
      assert ItemOk(db, db.items[i]);
      WantsScreened(db, next, q, db.members[db.items[i].member].scope, db.items[i].member);
    }
  }

  lemma WantsScreened(db: Db, next: Db, q: Qualification, sid: nat, m: nat)
    requires next == db.(quals := next.quals, items := next.items)
    requires next.quals == db.quals || (next.quals == db.quals + [q] && m != q.member)
    ensures Wants(next, sid, m) == Wants(db, sid, m)
  {
    hide Fits, Assigned, OnCurrentResume;
    LatestIsQualification(db.quals, m);
    LatestAppended(db.quals, q, m);
    if m < |db.members| {
      AssignedSame(db, next, db.members[m].candidate);
      assert OnCurrentResume(next, m) == OnCurrentResume(db, m) by { SameResume(db, next, m); }
    }
  }

  lemma SameResume(a: Db, b: Db, m: nat)
    requires m < |a.members| && b.members == a.members && b.workflows == a.workflows
    ensures OnCurrentResume(b, m) == OnCurrentResume(a, m)
  {}

  lemma EditRests(a: Db, b: Db)
    requires Good(a) && BusinessEdit(a, b) && Rested(a)
    ensures Rested(b)
  {
    hide RowsOk, SequencesOk, TasksOk, ItemsOk, MembersKept, AttemptsKept, Revision, Wants, ItemsOnlyCancelled;
    hide ScopesAdded, Untouched;
    EditWaits(a, b);
    forall s, m | 0 <= s < |a.scopes| && |b.scopes| >= |a.scopes| && Revision(b, s) == Revision(a, s) && Wants(b, s, m) ensures Wants(a, s, m) {
      if LoggedFor(b.changes, |a.changes|, s) {
        LoggedRaises(a, b, s);
      } else {
        UntouchedWants(a, b, s, m);
      }
    }
    RestedOn(a, b);
  }

  lemma LoggedRaises(a: Db, b: Db, s: nat)
    requires BusinessEdit(a, b) && s < |a.scopes| && LoggedFor(b.changes, |a.changes|, s)
    ensures s < |b.scopes| && Revision(b, s) > Revision(a, s)
  {
    hide LastChange, EditLogged, RowsOk, MembersKept, AttemptsKept, ItemsOnlyCancelled;
    var more := b.changes[|a.changes|..];
    assert b.changes == a.changes + more;
    ChangesOn(a.changes, more, s);
    var k :| |a.changes| <= k < |b.changes| && b.changes[k] == s;
    assert more[k - |a.changes|] == s;
    assert b.scopes[s] == b.scopes[..|a.scopes|][s];
  }

  lemma UntouchedWants(a: Db, b: Db, s: nat, m: nat)
    requires Untouched(a, b, s) && Wants(b, s, m) && b.quals == a.quals && AttemptsKept(a.attempts, b.attempts)
    ensures Wants(a, s, m)
  {
    hide Fits, Latest;
    var c := b.members[m].candidate;
    assert SameCandidate(a, b, c);
    StillAssigned(a, b, c);
  }

  lemma StillAssigned(a: Db, b: Db, c: nat)
    requires SameCandidate(a, b, c) && AttemptsKept(a.attempts, b.attempts)
    ensures Assigned(a, c) ==> Assigned(b, c)
  {
    hide Effective;
    if i :| 0 <= i < |a.attempts| && a.attempts[i].candidate == c && Effective(a.attempts[i]) {
      assert b.attempts[i].candidate == c;
    }
  }

  // ----- all runs -----

  lemma StepRests(s: Sys, step: Step)
    requires Inv(s) && Enabled(s, step) && Rested(s.db)
    ensures Rested(Next(s, step).db)
  {
    hide Inv, Enabled, Next, Rested, CommitsExecution, NoneWaits, NoneGains, Wants, SaveQualification;
    if CommitsExecution(s, step) {
      CommitRests(s, step);
    } else if step.Screen? {
      ScreenStep(s, step);
      ScreenRests(s.db, step.qualification);
    } else if step.Edit? {
      EditStep(s, step);
      EditRests(s.db, step.edited);
    } else {
      StepWaits(s, step);
      StepNoneGains(s, step);
      GainsNot(s.db, Next(s, step).db);
      RestedOn(s.db, Next(s, step).db);
    }
  }

  lemma ScreenStep(s: Sys, step: Step)
    requires Inv(s) && Enabled(s, step) && step.Screen?
    ensures Good(s.db) && step.qualification.member < |s.db.members| && Next(s, step).db == SaveQualification(s.db, step.qualification)
  {
    hide SaveQualification, RowsOk, TasksOk, ItemsOk, SequencesOk;
  }

  lemma EditStep(s: Sys, step: Step)
    requires Inv(s) && Enabled(s, step) && step.Edit?
    ensures Good(s.db) && BusinessEdit(s.db, step.edited) && Next(s, step).db == step.edited
  {
    hide BusinessEdit, RowsOk, TasksOk, ItemsOk, SequencesOk;
  }

  lemma {:induction false} RunRests(s: Sys, steps: seq<Step>)
    requires Inv(s) && Runs(s, steps) && Rested(s.db)
    ensures Rested(After(s, steps).db)
    decreases |steps|
  {
    hide Inv, Enabled, Next, Rested;
    if steps != [] {
      StepRests(s, steps[0]);
      StepKeepsInv(s, steps[0]);
      RunRests(Next(s, steps[0]), steps[1..]);
    }
  }

  /** In every run, whatever is edited, screened, paused or cancelled in between: work that waits although
      no change of its scope was logged since is work for a member who is not valid or whom no receiving
      demand of the scope would take. So nobody who could be assigned is overlooked. */
  lemma NoWakeUpIsLost(s: Sys, steps: seq<Step>, i: nat)
    requires Inv(s) && Runs(s, steps) && Rested(s.db)
    requires i < |After(s, steps).db.items| && After(s, steps).db.items[i].status == ItemWaiting
    ensures var db := After(s, steps).db;
            && db.items[i].member < |db.members|
            && var m, sid := db.items[i].member, db.members[db.items[i].member].scope;
               && sid < |db.scopes| && db.items[i].observed <= Revision(db, sid)
               && (db.items[i].observed == Revision(db, sid) && sid < |db.demands| && Valid(db, m) ==>
                     forall j | 0 <= j < |db.demands[sid]| :: !Serves(TagsOf(db, m), db.demands[sid][j]))
  {
    hide Inv, Runs, After, Revision, Valid, Serves;
    RunRests(s, steps);
    assert RestsWell(After(s, steps).db, After(s, steps).db.items[i]);
  }

  /** A database without work has nothing that waits. */
  lemma FreshRests(db: Db)
    requires db.items == []
    ensures Rested(db)
  {}
}
