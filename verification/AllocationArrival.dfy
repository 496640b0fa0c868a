/** A scope's executions serve its members in order of arrival: unless somebody asks for members by hand,
    whoever can be assigned is never overtaken by a later arrival. */
module AllocationArrival {
  import opened Orders
  import opened AllocationTypes
  import opened AllocationPolicy
  import opened AllocationCanonical
  import opened AllocationBatching
  import opened AllocationStore
  import opened AllocationProtocol
  import opened AllocationCommit
  import opened AllocationInvariants
  import opened AllocationSafety
  import opened AllocationLinearisation
  import opened AllocationWork
  import opened AllocationSeries
  import opened AllocationWaiting
  import Fencing = AllocationFencing
  import Rows = AllocationRows
  import Quiescence = AllocationQuiescence

  // ----- who may come up -----

  /** The item waits, a change was logged since, and it is the newest of its qualification. */
  ghost predicate Stirs(db: Db, sid: nat, i: nat) {
    && i < |db.items| && sid < |db.scopes| && db.items[i].status == ItemWaiting
    && db.items[i].observed < Revision(db, sid) && NewestItem(db.items, i)
  }

  /** Some work of the member is pending, leased, or about to be woken. */
  ghost predicate Up(db: Db, sid: nat, m: nat) {
    exists i :: 0 <= i < |db.items| && db.items[i].member == m && (Active(db.items[i]) || Stirs(db, sid, i))
  }

  ghost predicate Contends(db: Db, sid: nat, m: nat) { Wants(db, sid, m) && Up(db, sid, m) }

  /** Items stay in place with member and qualification; further ones may follow. */
  ghost predicate ItemsStay(a: seq<Item>, b: seq<Item>) {
    && |a| <= |b|
    && forall i | 0 <= i < |a| :: b[i].member == a[i].member && b[i].qualification == a[i].qualification
  }

  /** Work that is pending or leased afterwards is for members that were up before. */
  ghost predicate NoneRises(a: Db, b: Db, sid: nat) {
    forall j | 0 <= j < |b.items| && Active(b.items[j]) && InScopeOf(a, b.items[j].member, sid) :: Up(a, sid, b.items[j].member)
  }

  predicate InScopeOf(db: Db, m: nat, sid: nat) { m < |db.members| && db.members[m].scope == sid }

  /** What waits afterwards waited before in the same way, or has seen the newest change. */
  ghost predicate WaitsSeen(a: Db, b: Db, sid: nat) {
    forall j | 0 <= j < |b.items| && b.items[j].status == ItemWaiting && InScopeOf(a, b.items[j].member, sid) ::
      (j < |a.items| && b.items[j] == a.items[j]) || (sid < |b.scopes| && b.items[j].observed >= Revision(b, sid))
  }

  lemma ContendsLess(a: Db, b: Db, sid: nat, m: nat)
    requires Rested(a) && ItemsStay(a.items, b.items) && NoneRises(a, b, sid) && WaitsSeen(a, b, sid)
    requires sid < |a.scopes| && sid < |b.scopes| && Revision(a, sid) <= Revision(b, sid)
    requires Contends(b, sid, m) && Wants(a, sid, m)
    ensures Contends(a, sid, m)
  {
    hide Wants, Revision;
    WantsScope(a, sid, m);
    var j :| 0 <= j < |b.items| && b.items[j].member == m && (Active(b.items[j]) || Stirs(b, sid, j));
    if !Active(b.items[j]) {
      assert b.items[j] == a.items[j];
      assert RestsWell(a, a.items[j]);
      assert NewestItem(a.items, j);
      assert Stirs(a, sid, j);
    }
  }

  lemma WantsScope(db: Db, sid: nat, m: nat)
    requires Wants(db, sid, m)
    ensures InScopeOf(db, m, sid) && db.members[m].status == PendingAllocation
  {
    hide Fits, Latest, Assigned, OnCurrentResume;
  }

  // ----- what the transactions make active -----

  /** Nothing becomes active. */
  ghost predicate ActivesKept(a: seq<Item>, b: seq<Item>) {
    ItemsStay(a, b) && forall j | 0 <= j < |b| && Active(b[j]) :: j < |a| && Active(a[j])
  }

  lemma KeptRises(a: Db, b: Db, sid: nat)
    requires ActivesKept(a.items, b.items)
    ensures NoneRises(a, b, sid)
  {
    hide Stirs;
    forall j | 0 <= j < |b.items| && Active(b.items[j]) && InScopeOf(a, b.items[j].member, sid) ensures Up(a, sid, b.items[j].member) {
      assert Active(a.items[j]) && a.items[j].member == b.items[j].member;
    }
  }

  lemma CreateActives(db: Db, sid: nat, ids: seq<nat>, mode: Mode, key: Option<Key>, actor: Option<nat>)
    requires sid < |db.scopes|
    ensures var b := CreateTask(db, sid, ids, mode, key, actor).0.items;
            && ItemsStay(db.items, b) && (mode == Simulate ==> b == db.items)
            && (forall j | 0 <= j < |db.items| :: b[j].status == db.items[j].status)
            && forall j | |db.items| <= j < |b| :: b[j].status == ItemPending && b[j].member in ids
  {
    hide FindKey, InsertItems;
    Quiescence.InsertedItems(db.items, db.quals, ids, |db.tasks|);
    InsertedMembers(db.items, db.quals, ids, |db.tasks|);
    var r := InsertItems(db.items, db.quals, ids, |db.tasks|);
    assert forall j | 0 <= j < |db.items| :: r[j] == r[..|db.items|][j];
  }

  lemma {:induction false} InsertedMembers(items: seq<Item>, quals: seq<Qualification>, ids: seq<nat>, task: nat)
    ensures var r := InsertItems(items, quals, ids, task);
            |items| <= |r| && forall i | |items| <= i < |r| :: r[i].member in ids
  {
    hide HasActive;
    if ids != [] {
      var n := |ids| - 1;
      InsertedMembers(items, quals, ids[..n], task);
      assert ids == ids[..n] + [ids[n]];
    }
  }

  lemma RecoverActives(db: Db, sid: nat)
    ensures ActivesKept(db.items, Recover(db, sid).items)
  {}

  lemma GrantActives(db: Db, sid: nat, t: nat)
    requires sid < |db.scopes| && t < |db.tasks|
    ensures ActivesKept(db.items, Grant(db, sid, t).0.items)
  {}

  /** Waking raises only work that stirs, of the scope's own members. */
  lemma WakeActives(db: Db, sid: nat)
    requires sid < |db.scopes|
    ensures ItemsStay(db.items, Wake(db, sid).items) && |Wake(db, sid).items| == |db.items|
    ensures forall j | 0 <= j < |db.items| && Active(Wake(db, sid).items[j]) ::
              Active(db.items[j]) || (Stirs(db, sid, j) && InScopeOf(db, db.items[j].member, sid))
  {
    hide Revision, HasActive;
  }

  lemma LineIsActive(db: Db, sid: nat, m: nat)
    requires m in NextBatch(db, sid)
    ensures m < |db.members| && db.members[m].scope == sid && exists i :: 0 <= i < |db.items| && db.items[i].member == m && Active(db.items[i])
  {
    hide NextBatch, Rows.Waiters, Rows.ComesBefore;
    Rows.BatchByArrival(db, sid);
    assert Rows.Waits(db, sid, m);
    var i :| 0 <= i < |db.items| && db.items[i].member == m && db.items[i].status == ItemPending;
    assert Active(db.items[i]);
  }

  lemma RevisionKept(a: Db, b: Db, sid: nat)
    requires sid < |a.scopes| && b.scopes == a.scopes && b.changes == a.changes
    ensures Revision(b, sid) == Revision(a, sid)
  {}

  /** Whoever is up after recovery was up before. */
  lemma RecoverUp(db: Db, at: nat, sid: nat, m: nat)
    requires sid < |db.scopes| && Up(Recover(db, at), sid, m)
    ensures Up(db, sid, m)
  {
    hide Revision;
    var r := Recover(db, at);
    RevisionKept(db, r, sid);
    var i :| 0 <= i < |r.items| && r.items[i].member == m && (Active(r.items[i]) || Stirs(r, sid, i));
    assert r.items[i] == RecoverItem(r.tasks, at)(db.items[i]);
    if Active(r.items[i]) {
      assert Active(db.items[i]);
    } else {
      assert db.items[i] == r.items[i];
      assert forall j | 0 <= j < |db.items| :: r.items[j].qualification == db.items[j].qualification;
      assert Stirs(db, sid, i);
    }
  }

  lemma ClaimRises(db: Db, at: nat, sid: nat)
    requires Good(db) && at < |db.scopes| && sid < |db.scopes|
    ensures ItemsStay(db.items, Claim(db, at).0.items) && NoneRises(db, Claim(db, at).0, sid)
  {
    hide Recover, Wake, NextBatch, CreateTask, Grant, FirstPending, RowsOk, TasksOk, ItemsOk, SequencesOk, Up, Stirs;
    var how := ClaimEndsSomehow(db, at);
    var r, next := Recover(db, at), Claim(db, at).0;
    RecoverShape(db, at);
    RecoverActives(db, at);
    match how {
      case TakesPending(t) =>
        GrantActives(r, at, t);
        ActivesTwice(db.items, r.items, next.items);
        KeptRises(db, next, sid);
      case TakesBatch(ids) =>
        var w := Wake(r, at);
        WakeShape(r, at);
        WakeActives(r, at);
        var c := CreateTask(w, at, ids, Execute, None, None).0;
        CreateActives(w, at, ids, Execute, None, None);
        GrantActives(c, at, |w.tasks|);
        ItemsStayOn(db.items, r.items, w.items);
        ItemsStayOn(db.items, w.items, c.items);
        ItemsStayOn(db.items, c.items, next.items);
        forall j | 0 <= j < |next.items| && Active(next.items[j]) && InScopeOf(db, next.items[j].member, sid)
          ensures Up(db, sid, next.items[j].member)
        {
          BatchRises(db, at, r, w, c, ids, sid, j);
        }
      case TakesNothing =>
        if r.scopes[at].paused {
          KeptRises(db, next, sid);
        } else {
          WakeActives(r, at);
          ItemsStayOn(db.items, r.items, next.items);
          forall j | 0 <= j < |next.items| && Active(next.items[j]) && InScopeOf(db, next.items[j].member, sid)
            ensures Up(db, sid, next.items[j].member)
          {
            WokenUp(db, at, r, sid, j);
          }
        }
    }
  }

  lemma ItemsStayOn(a: seq<Item>, b: seq<Item>, c: seq<Item>)
    requires ItemsStay(a, b) && ItemsStay(b, c)
    ensures ItemsStay(a, c)
  {}

  lemma ActivesTwice(a: seq<Item>, b: seq<Item>, c: seq<Item>)
    requires ActivesKept(a, b) && ActivesKept(b, c)
    ensures ActivesKept(a, c)
  {}

  /** An item of the scope that is active after waking was up before. */
  lemma WokenUp(db: Db, at: nat, r: Db, sid: nat, j: nat)
    requires at < |db.scopes| && sid < |db.scopes| && r == Recover(db, at) && j < |Wake(r, at).items| && Active(Wake(r, at).items[j])
    requires InScopeOf(db, Wake(r, at).items[j].member, sid)
    ensures Up(db, sid, Wake(r, at).items[j].member)
  {
    hide Recover, Wake, Stirs;
    RecoverShape(db, at);
    WakeActives(r, at);
    var m := r.items[j].member;
    assert Active(r.items[j]) || Stirs(r, at, j);
    assert Active(r.items[j]) || at == sid;
    assert Up(r, sid, m);
    RecoverUp(db, at, sid, m);
  }

  lemma BatchRises(db: Db, at: nat, r: Db, w: Db, c: Db, ids: seq<nat>, sid: nat, j: nat)
    requires at < |db.scopes| && sid < |db.scopes| && r == Recover(db, at) && w == Wake(r, at) && ids == NextBatch(w, at)
    requires c == CreateTask(w, at, ids, Execute, None, None).0 && |c.tasks| == |w.tasks| + 1
    requires j < |Grant(c, at, |w.tasks|).0.items| && Active(Grant(c, at, |w.tasks|).0.items[j])
    requires InScopeOf(db, Grant(c, at, |w.tasks|).0.items[j].member, sid)
    ensures Up(db, sid, Grant(c, at, |w.tasks|).0.items[j].member)
  {
    hide Recover, Wake, Stirs, NextBatch, CreateTask, Grant, Up;
    RecoverShape(db, at);
    WakeShape(r, at);
    CreateActives(w, at, ids, Execute, None, None);
    GrantActives(c, at, |w.tasks|);
    var m := Grant(c, at, |w.tasks|).0.items[j].member;
    assert Active(c.items[j]) && c.items[j].member == m;
    if j < |w.items| {
      WokenUp(db, at, r, sid, j);
    } else {
      LineIsActive(w, at, m);
      var i :| 0 <= i < |w.items| && w.items[i].member == m && Active(w.items[i]);
      WokenUp(db, at, r, sid, i);
    }
  }

  lemma CleanActives(db: Db, ids: seq<nat>)
    ensures ActivesKept(db.items, Clean(db, ids).items)
  {
    hide Cleaned;
  }

  lemma ProcessActives(db: Db, tk: Ticket, pin: nat, authorized: bool)
    ensures ActivesKept(db.items, Process(db, tk, pin, authorized).0.items)
  {
    hide Clean, Build, Canonical, Revision, CleanBlocked, Buildable;
    CleanActives(db, tk.members);
  }

  lemma FailureActives(db: Db, tk: Ticket, failure: Failure)
    ensures ActivesKept(db.items, FinishFailure(db, tk, failure).items)
  {
    hide DropPlans;
  }

  lemma CancelActives(db: Db, t: nat)
    requires t < |db.tasks| && db.tasks[t].scope < |db.scopes|
    ensures ActivesKept(db.items, CancelTask(db, t).items)
  {
    hide DropPlans, PlanKeys;
  }

  lemma PauseActives(db: Db, sid: nat, paused: bool, expected: nat)
    requires sid < |db.scopes|
    ensures ActivesKept(db.items, SetPaused(db, sid, paused, expected).items)
  {
    hide DropPlans, PlanKeys;
  }

  lemma SimulationActives(db: Db, x: Worker, authorized: bool)
    requires Good(db) && x.Accepted? && WorkerOk(db, x) && x.request.snapshot.at >= 0
    requires var r := Commit(db, x.ticket, x.request, x.decisions, authorized); !(r.1.CommitDone? && x.ticket.mode == Execute)
    ensures ActivesKept(db.items, Commit(db, x.ticket, x.request, x.decisions, authorized).0.items)
  {
    hide Revision, Build, Canonical, Buildable, Plan, RequestOk, ApplyDecisions, MaxSequence, RowsOk, TasksOk;
    hide SequencesOk, WellKeyed;
    var r := Commit(db, x.ticket, x.request, x.decisions, authorized);
    if r.1.CommitDone? {
      SimulationAppliesNothing(db, x.ticket, x.decisions);
      SimulationLeasesNothing(db, x.ticket);
      ObservesNothing(db, x.ticket);
    }
  }

  /** Nobody asks by hand for an execution with members of the scope, and nothing comes from outside. */
  ghost predicate Orderly(s: Sys, step: Step, sid: nat)
    requires Enabled(s, step)
  {
    && !step.Edit? && !step.Screen?
    && (step.Submit? ==> step.scope != sid || step.mode == Simulate)
    && (step.Retry? ==> s.db.tasks[step.task].scope != sid || s.db.tasks[step.task].mode == Simulate)
  }

  lemma SubmitRises(db: Db, at: nat, ids: seq<nat>, mode: Mode, key: Option<Key>, actor: Option<nat>, sid: nat)
    requires at < |db.scopes| && MembersInScope(db, at, ids) && (at != sid || mode == Simulate)
    ensures var next := CreateTask(db, at, ids, mode, key, actor).0; ItemsStay(db.items, next.items) && NoneRises(db, next, sid)
  {
    hide CreateTask, Stirs;
    CreateActives(db, at, ids, mode, key, actor);
    var next := CreateTask(db, at, ids, mode, key, actor).0;
    forall j | 0 <= j < |next.items| && Active(next.items[j]) && InScopeOf(db, next.items[j].member, sid) ensures Up(db, sid, next.items[j].member) {
      assert j < |db.items| && Active(db.items[j]) && db.items[j].member == next.items[j].member;
    }
  }

  lemma StepRises(s: Sys, step: Step, sid: nat)
    requires Inv(s) && Enabled(s, step) && Orderly(s, step, sid) && !CommitsExecution(s, step) && sid < |s.db.scopes|
    ensures ItemsStay(s.db.items, Next(s, step).db.items) && NoneRises(s.db, Next(s, step).db, sid)
  {
    hide RowsOk, TasksOk, ItemsOk, SequencesOk, CreateTask, CancelTask, SetPaused, Claim, NoneRises, ActivesKept, ItemsStay;
    hide LeaseFree, HasLiveTask, ClaimableItem, Process, Accepts, Commit, FinishFailure, TicketOk, RequestOk, Plan;
    hide MembersInScope;
    var db, next := s.db, Next(s, step).db;
    match step {
      case Submit(at, ids, mode, key, actor) => SubmitRises(db, at, ids, mode, if key.Some? then Some(CallerKey(key.value)) else None, actor, sid);
      case Retry(t, key, actor) =>
        TaskMembersInScope(db, t);
        SubmitRises(db, db.tasks[t].scope, db.tasks[t].members, db.tasks[t].mode, Some(CallerKey(key)), actor, sid);
        SameActives(db, db);
        KeptItems(db, db, sid);
      case TakeWork(_, at) => ClaimRises(db, at, sid);
      case Cancel(t) =>
        CancelActives(db, t);
        KeptItems(db, next, sid);
      case Pause(at, paused, expected) =>
        PauseActives(db, at, paused, expected);
        KeptItems(db, next, sid);
      case Prepare(w, pin, authorized) =>
        ProcessActives(db, s.workers[w].ticket, pin, authorized);
        KeptItems(db, next, sid);
      case Conclude(w, authorized) =>
        assert WorkerOk(db, s.workers[w]);
        SimulationActives(db, s.workers[w], authorized);
        KeptItems(db, next, sid);
      case Abandon(w) =>
        FailureActives(db, s.workers[w].ticket, s.workers[w].failure);
        KeptItems(db, next, sid);
      case _ =>
        SameActives(db, next);
        KeptItems(db, next, sid);
    }
  }

  lemma SameActives(a: Db, b: Db)
    ensures b.items == a.items ==> ActivesKept(a.items, b.items)
  {}

  lemma KeptItems(a: Db, b: Db, sid: nat)
    ensures ActivesKept(a.items, b.items) ==> ItemsStay(a.items, b.items) && NoneRises(a, b, sid)
  {
    hide NoneRises;
    if ActivesKept(a.items, b.items) {
      KeptRises(a, b, sid);
    }
  }

  lemma WaitsSeenBy(a: Db, b: Db, sid: nat)
    requires NoneWaits(a, b)
    ensures WaitsSeen(a, b, sid)
  {
    hide Revision;
  }

  /** Whoever contends after a step contended before. */
  lemma StepContends(s: Sys, step: Step, sid: nat)
    requires Inv(s) && Enabled(s, step) && Orderly(s, step, sid) && Rested(s.db) && sid < |s.db.scopes|
    ensures forall m :: Contends(Next(s, step).db, sid, m) ==> Contends(s.db, sid, m)
  {
    hide Inv, Enabled, Next, Wants, Up, NoneRises, ItemsStay, WaitsSeen, CommitsExecution, NoneWaits, Revision, Rested;
    var db, next := s.db, Next(s, step).db;
    StepNoneGains(s, step);
    if CommitsExecution(s, step) {
      CommitRises(s, step, sid);
    } else {
      StepRises(s, step, sid);
      StepWaits(s, step);
      WaitsSeenBy(db, next, sid);
      WaitsGoOn(db, next, sid);
    }
    forall m | Contends(next, sid, m) ensures Contends(db, sid, m) {
      ContendsLess(db, next, sid, m);
    }
  }

  lemma WaitsGoOn(a: Db, b: Db, sid: nat)
    requires NoneWaits(a, b) && sid < |a.scopes|
    ensures sid < |b.scopes| && Revision(a, sid) <= Revision(b, sid)
  {
    hide Revision;
  }

  lemma CommitRises(s: Sys, step: Step, sid: nat)
    requires Inv(s) && Enabled(s, step) && CommitsExecution(s, step) && Rested(s.db) && sid < |s.db.scopes|
    ensures var db, next := s.db, Next(s, step).db;
            && ItemsStay(db.items, next.items) && NoneRises(db, next, sid) && WaitsSeen(db, next, sid)
            && sid < |next.scopes| && Revision(db, sid) <= Revision(next, sid)
  {
    hide Inv, Enabled, Next, CommitsExecution, Revision, Commit, Good, WorkerOk, Rested, Up;
    CommitOf(s, step);
    var x, db, next := s.workers[step.worker], s.db, Next(s, step).db;
    CommitItems(db, x, step.authorized, next);
    assert ActivesKept(db.items, next.items);
    KeptRises(db, next, sid);
    forall j | 0 <= j < |next.items| && next.items[j].status == ItemWaiting && InScopeOf(db, next.items[j].member, sid)
      ensures (j < |db.items| && next.items[j] == db.items[j]) || (sid < |next.scopes| && next.items[j].observed >= Revision(next, sid))
    {
      if db.items[j].status == ItemLeased {
        LeasedBy(db, x, j);
      }
    }
  }

  // ----- executions under way -----

  ghost predicate Executing(db: Db, sid: nat, t: int) {
    0 <= t < |db.tasks| && db.tasks[t].scope == sid && db.tasks[t].mode == Execute && Live(db.tasks[t])
  }

  /** The scope has at most one execution under way, and whoever contends outside it arrived after all of
      its members. */
  ghost predicate InTurn(db: Db, sid: nat) {
    forall t | Executing(db, sid, t) ::
      && (forall u | Executing(db, sid, u) :: u == t)
      && forall m, n | m in db.tasks[t].members && n !in db.tasks[t].members && Contends(db, sid, n) :: Rows.ComesBefore(db, m, n)
  }

  /** Members keep scope and time of arrival. */
  ghost predicate MembersStay(a: Db, b: Db) {
    && |b.members| == |a.members|
    && forall m | 0 <= m < |a.members| :: b.members[m].scope == a.members[m].scope && b.members[m].createdAt == a.members[m].createdAt
  }

  lemma StepMembers(s: Sys, step: Step)
    requires Inv(s) && Enabled(s, step) && !step.Edit?
    ensures MembersStay(s.db, Next(s, step).db)
  {
    hide Inv, Enabled, Next, View, AtomicStep, CommitsExecution, Valid;
    var act := StepRefines(s, step);
    ViewRows(s.db);
    ViewRows(Next(s, step).db);
    ActMembers(View(s.db), act, View(Next(s, step).db));
  }

  lemma ActMembers(b: Db, act: AtomicAct, c: Db)
    requires AtomicStep(b, act, c) && !act.Outside?
    ensures MembersStay(b, c)
  {
    hide PlannedNow, NewAttempts, Buildable, PickOf, CleanChanges, CleanItem, Update, Restated;
  }

  /** Executions under way were under way before. */
  ghost predicate NoneStarts(a: Db, b: Db, sid: nat) {
    forall t | Executing(b, sid, t) :: Executing(a, sid, t) && b.tasks[t].members == a.tasks[t].members
  }

  lemma InTurnOn(a: Db, b: Db, sid: nat)
    requires InTurn(a, sid) && NoneStarts(a, b, sid) && MembersStay(a, b)
    requires forall m :: Contends(b, sid, m) ==> Contends(a, sid, m)
    ensures InTurn(b, sid)
  {
    hide Contends;
    forall t | Executing(b, sid, t)
      ensures forall u | Executing(b, sid, u) :: u == t
      ensures forall m, n | m in b.tasks[t].members && n !in b.tasks[t].members && Contends(b, sid, n) :: Rows.ComesBefore(b, m, n)
    {
      assert Executing(a, sid, t);
      forall m, n | m in b.tasks[t].members && n !in b.tasks[t].members && Contends(b, sid, n) ensures Rows.ComesBefore(b, m, n) {
        assert Rows.ComesBefore(a, m, n);
      }
    }
  }

  /** A task that is live was live before, or is new. */
  lemma StepStarts(s: Sys, step: Step, sid: nat, t: nat)
    requires Inv(s) && Enabled(s, step) && Executing(Next(s, step).db, sid, t) && t < |s.db.tasks|
    ensures Executing(s.db, sid, t) && Next(s, step).db.tasks[t].members == s.db.tasks[t].members
  {
    hide Inv, Enabled, Next, RowsOk, TasksOk, ItemsOk, SequencesOk, ItemsEvolve, Fencing.Credit, Fencing.LeasesMove;
    StepKeepsTables(s, step);
    Fencing.StepMoves(s, step);
  }

  /** Only a claim of the scope forms an execution of it. */
  lemma ElseStarts(s: Sys, step: Step, sid: nat)
    requires Inv(s) && Enabled(s, step) && Orderly(s, step, sid) && !(step.TakeWork? && step.scope == sid)
    ensures NoneStarts(s.db, Next(s, step).db, sid)
  {
    hide Inv, Enabled, Next, Orderly;
    forall t | Executing(Next(s, step).db, sid, t)
      ensures Executing(s.db, sid, t) && Next(s, step).db.tasks[t].members == s.db.tasks[t].members
    {
      if t < |s.db.tasks| {
        StepStarts(s, step, sid, t);
      } else {
        NewTaskElsewhere(s, step, sid, t);
      }
    }
  }

  lemma NewTaskElsewhere(s: Sys, step: Step, sid: nat, t: nat)
    requires Inv(s) && Enabled(s, step) && Orderly(s, step, sid) && !(step.TakeWork? && step.scope == sid)
    requires |s.db.tasks| <= t < |Next(s, step).db.tasks|
    ensures Next(s, step).db.tasks[t].scope != sid || Next(s, step).db.tasks[t].mode == Simulate
  {
    hide RowsOk, TasksOk, ItemsOk, SequencesOk, WorkerOk, CreateTask, CancelTask, SetPaused, Claim, Process, Accepts;
    hide Commit, FinishFailure, Plan, MembersInScope;
    hide LeaseFree, HasLiveTask, ClaimableItem;
    var db := s.db;
    match step {
      case Submit(at, ids, mode, key, actor) => NewTask(db, at, ids, mode, if key.Some? then Some(CallerKey(key.value)) else None, actor);
      case Retry(u, key, actor) => NewTask(db, db.tasks[u].scope, db.tasks[u].members, db.tasks[u].mode, Some(CallerKey(key)), actor);
      case TakeWork(_, at) => ClaimedTasks(db, at);
      case Cancel(u) => CancelTasksCount(db, u);
      case Pause(at, paused, expected) => PauseTasksCount(db, at, paused, expected);
      case Prepare(w, pin, authorized) => ProcessTasksCount(db, s.workers[w].ticket, pin, authorized);
      case Conclude(w, authorized) => CommitTasksCount(db, s.workers[w], authorized);
      case Abandon(w) => FailureTasksCount(db, s.workers[w].ticket, s.workers[w].failure);
      case _ =>
    }
  }

  lemma NewTask(db: Db, at: nat, ids: seq<nat>, mode: Mode, key: Option<Key>, actor: Option<nat>)
    requires at < |db.scopes|
    ensures var r := CreateTask(db, at, ids, mode, key, actor).0;
            |r.tasks| >= |db.tasks| && forall t | |db.tasks| <= t < |r.tasks| :: r.tasks[t].scope == at && r.tasks[t].mode == mode
  {
    hide InsertItems, FindKey, Update, AttachItem;
  }

  lemma ClaimedTasks(db: Db, at: nat)
    requires Good(db) && at < |db.scopes|
    ensures forall t | |db.tasks| <= t < |Claim(db, at).0.tasks| :: Claim(db, at).0.tasks[t].scope == at
  {
    hide Recover, Wake, NextBatch, CreateTask, FirstPending, RowsOk, TasksOk, ItemsOk, SequencesOk, LeaseItem, Update;
    hide Claims;
    var how := ClaimEndsSomehow(db, at);
    var r := Recover(db, at);
    RecoverShape(db, at);
    match how {
      case TakesPending(_) =>
      case TakesBatch(ids) =>
        WakeShape(r, at);
        BatchSize(Wake(r, at), at, ids);
        NewTask(Wake(r, at), at, ids, Execute, None, None);
      case TakesNothing =>
        WakeShape(r, at);
    }
  }

  lemma CancelTasksCount(db: Db, t: nat)
    requires t < |db.tasks| && db.tasks[t].scope < |db.scopes|
    ensures |CancelTask(db, t).tasks| == |db.tasks|
  {
    hide DropPlans, PlanKeys, CancelItem;
  }

  lemma PauseTasksCount(db: Db, at: nat, paused: bool, expected: nat)
    requires at < |db.scopes|
    ensures |SetPaused(db, at, paused, expected).tasks| == |db.tasks|
  {
    hide DropPlans, PlanKeys, PauseItem;
  }

  lemma ProcessTasksCount(db: Db, tk: Ticket, pin: nat, authorized: bool)
    ensures |Process(db, tk, pin, authorized).0.tasks| == |db.tasks|
  {
    hide Clean, Build, Canonical, Revision, CleanBlocked, Buildable;
    CleanShape(db, tk.members);
  }

  lemma CommitTasksCount(db: Db, x: Worker, authorized: bool)
    requires x.Accepted? && x.request.snapshot.at >= 0
    ensures |Commit(db, x.ticket, x.request, x.decisions, authorized).0.tasks| == |db.tasks|
  {
    hide Build, Canonical, Buildable, Revision, Settle, ApplyDecisions, MaxSequence;
    if Commit(db, x.ticket, x.request, x.decisions, authorized).1.CommitDone? {
      TasksAfterSettle(ApplyDecisions(db, x.ticket, x.decisions).value, x.ticket, MaxSequence(x.decisions));
    }
  }

  lemma FailureTasksCount(db: Db, tk: Ticket, failure: Failure)
    ensures |FinishFailure(db, tk, failure).tasks| == |db.tasks|
  {
    hide DropPlans, FailItem;
  }

  // ----- forming a batch -----

  /** When a batch is formed, no execution of the scope is under way. */
  lemma NothingExecuting(db: Db, sid: nat, t: int)
    requires NoneRunning(db, sid) && NothingClaimable(db.tasks, sid, false)
    ensures !Executing(db, sid, t)
  {}

  /** Whoever contends after waking stands in line. */
  lemma ContenderWaits(r: Db, sid: nat, n: nat, j: nat)
    requires ItemsOk(r) && TasksOk(r) && NoneRunning(r, sid) && sid < |r.scopes| && j < |r.items|
    requires var w := Wake(r, sid); w.items[j].member == n && (Active(w.items[j]) || Stirs(w, sid, j))
    requires InScopeOf(r, n, sid) && r.members[n].status == PendingAllocation
    ensures Rows.Waits(Wake(r, sid), sid, n)
  {
    hide Revision, TaskOk;
    var w := Wake(r, sid);
    WakeShape(r, sid);
    RevisionKept(r, w, sid);
    assert ItemOk(r, r.items[j]);
    if w.items[j].status == ItemLeased {
      LeasedTask(r, sid, j);
    } else if w.items[j].status == ItemWaiting {
      assert r.items[j] == w.items[j];
      assert forall k | 0 <= k < |r.items| :: w.items[k].qualification == r.items[k].qualification;
      assert NewestItem(r.items, j);
      NewestIsIdle(r, j);
    }
    assert w.items[j].status == ItemPending;
  }

  lemma LeasedTask(r: Db, sid: nat, j: nat)
    requires ItemsOk(r) && TasksOk(r) && j < |r.items| && r.items[j].status == ItemLeased && InScopeOf(r, r.items[j].member, sid)
    ensures !NoneRunning(r, sid)
  {
    assert ItemOk(r, r.items[j]);
    var t := r.items[j].task.value;
    TaskMembersInScope(r, t);
    assert r.tasks[t].scope == sid;
  }

  /** The newest item of a qualification being neither pending nor leased, none is. */
  lemma NewestIsIdle(r: Db, j: nat)
    requires ItemsOk(r) && j < |r.items| && NewestItem(r.items, j) && !Active(r.items[j])
    ensures !HasActive(r.items, r.items[j].qualification)
  {
    hide ItemOk;
  }

  /** Whoever contends after a batch was formed and is not in it stood in line when it was formed. */
  lemma OutsideBatchWaits(db: Db, sid: nat, ids: seq<nat>, n: nat)
    requires Good(db) && sid < |db.scopes| && ClaimEnds(db, sid, TakesBatch(ids))
    requires Contends(Claim(db, sid).0, sid, n) && n !in ids
    ensures Rows.Waits(Wake(Recover(db, sid), sid), sid, n)
  {
    hide Recover, Wake, NextBatch, CreateTask, Grant, Wants, RowsOk, TasksOk, ItemsOk, SequencesOk, Stirs;
    hide NoneRunning, Evolves, Claim;
    var r, next := Recover(db, sid), Claim(db, sid).0;
    RecoverKeeps(db, sid);
    RecoverShape(db, sid);
    WakeShape(r, sid);
    var w := Wake(r, sid);
    var c := CreateTask(w, sid, ids, Execute, None, None).0;
    CreateActives(w, sid, ids, Execute, None, None);
    GrantActives(c, sid, |w.tasks|);
    ClaimMembers(db, sid);
    WantsScope(next, sid, n);
    var j :| 0 <= j < |next.items| && next.items[j].member == n && (Active(next.items[j]) || Stirs(next, sid, j));
    if Active(next.items[j]) {
      assert c.items[j].member == n && Active(c.items[j]);
      assert j < |w.items|;
    } else {
      StirredThrough(w, sid, ids, j);
    }
    assert w.items[j].member == n && (Active(w.items[j]) || Stirs(w, sid, j));
    ItemsSame(r, sid);
    ContenderWaits(r, sid, n, j);
  }

  lemma ItemsSame(r: Db, sid: nat)
    requires sid < |r.scopes|
    ensures |Wake(r, sid).items| == |r.items|
  {}

  lemma ClaimMembers(db: Db, sid: nat)
    requires Good(db) && sid < |db.scopes|
    ensures Claim(db, sid).0.members == db.members
  {
    hide Recover, Wake, NextBatch, CreateTask, FirstPending, RowsOk, TasksOk, ItemsOk, SequencesOk, LeaseItem, Update;
    var how := ClaimEndsSomehow(db, sid);
    RecoverShape(db, sid);
    WakeShape(Recover(db, sid), sid);
  }

  /** What stirs after the batch was formed and handed over, stirred before. */
  lemma StirredThrough(w: Db, sid: nat, ids: seq<nat>, j: nat)
    requires sid < |w.scopes| && CreateTask(w, sid, ids, Execute, None, None).1 == Created(|w.tasks|)
    requires var c := CreateTask(w, sid, ids, Execute, None, None).0; |c.tasks| == |w.tasks| + 1 && Stirs(Grant(c, sid, |w.tasks|).0, sid, j)
    ensures j < |w.items| && Stirs(w, sid, j)
    ensures w.items[j].member == Grant(CreateTask(w, sid, ids, Execute, None, None).0, sid, |w.tasks|).0.items[j].member
  {
    hide CreateTask, Revision, NoneWaits;
    var c := CreateTask(w, sid, ids, Execute, None, None).0;
    var next := Grant(c, sid, |w.tasks|).0;
    CreateWaits(w, sid, ids, Execute, None, None);
    CreateActives(w, sid, ids, Execute, None, None);
    GrantActives(c, sid, |w.tasks|);
    GrantKeepsWaits(w, c, sid, j);
    StirsBack(w, next, sid, j);
  }

  lemma GrantKeepsWaits(w: Db, c: Db, sid: nat, j: nat)
    requires NoneWaits(w, c) && sid < |c.scopes| && |w.tasks| < |c.tasks| && c.scopes == w.scopes && c.changes == w.changes
    requires j < |Grant(c, sid, |w.tasks|).0.items| && Grant(c, sid, |w.tasks|).0.items[j].status == ItemWaiting
    ensures j < |w.items| && Grant(c, sid, |w.tasks|).0.items[j] == w.items[j]
    ensures Revision(Grant(c, sid, |w.tasks|).0, sid) == Revision(w, sid)
  {
    hide LastChange;
  }

  lemma StirsBack(a: Db, b: Db, sid: nat, j: nat)
    requires ItemsStay(a.items, b.items) && sid < |a.scopes| && sid < |b.scopes| && Revision(a, sid) == Revision(b, sid)
    requires Stirs(b, sid, j) && j < |a.items| && b.items[j] == a.items[j]
    ensures Stirs(a, sid, j)
  {
    hide Revision;
  }

  lemma BatchInTurn(db: Db, sid: nat, ids: seq<nat>)
    requires Good(db) && sid < |db.scopes| && ClaimEnds(db, sid, TakesBatch(ids))
    ensures InTurn(Claim(db, sid).0, sid)
  {
    hide Recover, Wake, NextBatch, CreateTask, RowsOk, TasksOk, ItemsOk, SequencesOk, Contends, NoneRunning, Evolves;
    hide Claim, LeaseItem, Update;
    hide Rows.Waits, Rows.ComesBefore, Rows.Waiters, Claims;
    var r, next := Recover(db, sid), Claim(db, sid).0;
    RecoverKeeps(db, sid);
    RecoverShape(db, sid);
    WakeShape(r, sid);
    var w := Wake(r, sid);
    BatchSize(w, sid, ids);
    ClaimMembers(db, sid);
    Rows.BatchByArrival(w, sid);
    var t := |w.tasks|;
    assert next.tasks[t].members == ids;
    forall u | Executing(next, sid, u) ensures u == t {
      if u != t {
        OtherTask(w, next, t, u);
        NothingExecuting(w, sid, u);
      }
    }
    forall m, n | m in ids && n !in ids && Contends(next, sid, n) ensures Rows.ComesBefore(next, m, n) {
      OutsideBatchWaits(db, sid, ids, n);
      SameArrival(w, next, m, n);
    }
  }

  lemma SameArrival(a: Db, b: Db, m: nat, n: nat)
    requires b.members == a.members
    ensures Rows.ComesBefore(b, m, n) == Rows.ComesBefore(a, m, n)
  {}

  lemma OtherTask(w: Db, next: Db, t: nat, u: int)
    requires 0 <= u < |next.tasks| == |w.tasks| + 1 && t == |w.tasks| && u != t && next.tasks[u] == next.tasks[..t][u]
    requires next.tasks[..t] == w.tasks
    ensures u < |w.tasks| && next.tasks[u] == w.tasks[u]
  {}

  /** Forming, taking over, finishing, failing, pausing and cancelling executions keeps the turns. */
  lemma StepKeepsTurn(s: Sys, step: Step, sid: nat)
    requires Inv(s) && Enabled(s, step) && Orderly(s, step, sid) && Rested(s.db) && InTurn(s.db, sid) && sid < |s.db.scopes|
    ensures InTurn(Next(s, step).db, sid)
  {
    hide Inv, Enabled, Next, Orderly, InTurn, Contends, Executing, MembersStay, Rested;
    if step.TakeWork? && step.scope == sid {
      ClaimKeepsTurn(s, step, sid);
    } else {
      OrderlyParts(s, step, sid);
      ElseStarts(s, step, sid);
      StepMembers(s, step);
      StepContends(s, step, sid);
      InTurnOn(s.db, Next(s, step).db, sid);
    }
  }

  lemma OrderlyParts(s: Sys, step: Step, sid: nat)
    requires Enabled(s, step) && Orderly(s, step, sid)
    ensures !step.Edit? && !step.Screen?
  {
    hide Enabled;
  }

  lemma ClaimKeepsTurn(s: Sys, step: Step, sid: nat)
    requires Inv(s) && Enabled(s, step) && Orderly(s, step, sid) && Rested(s.db) && InTurn(s.db, sid)
    requires step.TakeWork? && step.scope == sid && sid < |s.db.scopes|
    ensures InTurn(Next(s, step).db, sid)
  {
    hide Inv, Next, Enabled, InTurn, Contends, Recover, Wake, NextBatch, CreateTask, Grant, Claim, MembersStay;
    hide Rested, RowsOk;
    TakenIs(s, step);
    InvRows(s);
    var how := ClaimEndsSomehow(s.db, sid);
    match how {
      case TakesBatch(ids) => BatchInTurn(s.db, sid, ids);
      case _ =>
        SameTaskCount(s.db, sid, how);
        forall t | Executing(Next(s, step).db, sid, t)
          ensures Executing(s.db, sid, t) && Next(s, step).db.tasks[t].members == s.db.tasks[t].members
        {
          StepStarts(s, step, sid, t);
        }
        StepMembers(s, step);
        StepContends(s, step, sid);
        InTurnOn(s.db, Next(s, step).db, sid);
    }
  }

  lemma TakenIs(s: Sys, step: Step)
    requires Enabled(s, step) && step.TakeWork?
    ensures step.scope < |s.db.scopes| && Next(s, step).db == Claim(s.db, step.scope).0
  {
    hide Claim, LeaseFree, HasLiveTask, ClaimableItem;
  }

  lemma SameTaskCount(db: Db, sid: nat, how: ClaimCase)
    requires sid < |db.scopes| && ClaimEnds(db, sid, how) && !how.TakesBatch?
    ensures |Claim(db, sid).0.tasks| == |db.tasks|
  {
    hide Recover, Wake, NextBatch, CreateTask, FirstPending, LeaseItem, Update, Claims, Claim;
    RecoverShape(db, sid);
    WakeShape(Recover(db, sid), sid);
  }

  // ----- whole runs -----

  ghost predicate OrderlyRun(s: Sys, steps: seq<Step>, sid: nat)
    requires Runs(s, steps)
    decreases |steps|
  {
    steps == [] || (Orderly(s, steps[0], sid) && OrderlyRun(Next(s, steps[0]), steps[1..], sid))
  }

  lemma {:induction false} OrderlyIsEngine(s: Sys, steps: seq<Step>, sid: nat)
    requires Runs(s, steps) && OrderlyRun(s, steps, sid)
    ensures EngineOnly(steps)
    decreases |steps|
  {
    hide Enabled, Next;
    if steps != [] {
      OrderlyParts(s, steps[0], sid);
      OrderlyIsEngine(Next(s, steps[0]), steps[1..], sid);
      assert steps == [steps[0]] + steps[1..];
    }
  }

  /** The member can be assigned, and either contends or belongs to the execution under way. */
  ghost predicate Expected(db: Db, sid: nat, m: int) {
    0 <= m < |db.members| && Wants(db, sid, m) && (Up(db, sid, m) || exists t :: Executing(db, sid, t) && m in db.tasks[t].members)
  }

  ghost predicate ShowsRow(db: Db, x: Member) { 0 <= x.memberId < |db.members| && x.createdAt == db.members[x.memberId].createdAt }

  lemma ComesEarlier(db: Db, x: Member, y: Member)
    requires 0 <= x.memberId < |db.members| && 0 <= y.memberId < |db.members|
    requires x.createdAt == db.members[x.memberId].createdAt && y.createdAt == db.members[y.memberId].createdAt
    requires Rows.ComesBefore(db, x.memberId, y.memberId)
    ensures Earlier(x, y)
  {
    var a, b := Arrival(x), Arrival(y);
    assert a[0] == x.createdAt && b[0] == y.createdAt && a[1] == x.memberId && b[1] == y.memberId;
    assert a[1..][0] == a[1] && b[1..][0] == b[1];
  }

  /** Who is planned: members of the task who can be assigned. */
  lemma PlannedAre(db: Db, w: Worker, demands: seq<Demand>, x: Member)
    requires RowsOk(db) && w.Accepted? && Buildable(db, w.ticket) && w.request.snapshot.at >= 0
    requires w.ticket.scope < |db.demands| && OfRows(demands, db.demands[w.ticket.scope]) && InScope(db, w.ticket.scope, w.ticket.members)
    requires x in Lineup(Found(db, w)) && AnyFeasible(x, demands)
    ensures x.memberId in w.ticket.members && ShowsRow(db, x) && Wants(db, w.ticket.scope, x.memberId)
  {
    hide RowsOk, SortBy, Buildable, Build, Found, SnapshotMember, Valid, Fits, SnapshotMembers, AnyFeasible, Lineup;
    var at, sid := w.request.snapshot.at, w.ticket.scope;
    FoundIs(db, w);
    InLineup(Found(db, w));
    SnapshotMembersListed(db, sid, at, w.ticket.members, |db.members|);
    FitsMeans(db, sid, at, x.memberId, demands);
    MemberFields(db, sid, at, x.memberId);
  }

  lemma PlannedExpected(s: Sys, step: Step, w: Worker, sid: nat, demands: seq<Demand>, x: Member)
    requires Concludes(s, step, w) && w.ticket.scope == sid && sid < |s.db.demands| && OfRows(demands, s.db.demands[sid])
    requires x in Assignable(Lineup(Found(s.db, w)), demands)
    requires Enabled(s, step) && CommitsExecution(s, step) && Inv(s)
    ensures x.memberId in w.ticket.members && ShowsRow(s.db, x) && Expected(s.db, sid, x.memberId)
  {
    hide Inv, Enabled, Next, RowsOk, Plan, Lineup, Found, OfRows, Buildable, Wants, Up, InScope, CommitsExecution;
    hide AnyFeasible, Executing;
    FoundPlanned(s, step, w);
    InvRows(s);
    TicketInScope(s, step, w);
    PlannedAre(s.db, w, demands, x);
    CommitExecutes(s, step, w);
  }

  lemma TicketInScope(s: Sys, step: Step, w: Worker)
    requires Concludes(s, step, w) && Enabled(s, step) && CommitsExecution(s, step) && Inv(s)
    ensures InScope(s.db, w.ticket.scope, w.ticket.members)
  {
    hide Inv, Enabled, Next, CommitsExecution, Good, RequestOk, InScope;
    CommitOf(s, step);
    TicketMembers(s.db, w.ticket);
  }

  /** The execution that commits is the one under way, and is finished afterwards. */
  lemma CommitExecutes(s: Sys, step: Step, w: Worker)
    requires Concludes(s, step, w) && Enabled(s, step) && CommitsExecution(s, step) && Inv(s)
    ensures w.ticket.task < |s.db.tasks| && s.db.tasks[w.ticket.task].members == w.ticket.members
    ensures Executing(s.db, w.ticket.scope, w.ticket.task) && !Executing(Next(s, step).db, w.ticket.scope, w.ticket.task)
  {
    hide Inv, Enabled, Next, CommitsExecution, Good, RequestOk, Commit;
    CommitOf(s, step);
    CommitParts(s.db, w);
    HeldAtCommit(s.db, w, step.authorized);
    TaskEnds(s.db, w, step.authorized, Next(s, step).db);
  }

  lemma HeldAtCommit(db: Db, x: Worker, authorized: bool)
    requires x.Accepted? && x.request.snapshot.at >= 0 && Commit(db, x.ticket, x.request, x.decisions, authorized).1.CommitDone?
    ensures x.ticket.task < |db.tasks| && db.tasks[x.ticket.task].status == TaskRunning
  {
    hide Build, Canonical, Buildable, Revision, Settle, ApplyDecisions, MaxSequence;
  }

  /** The members of a new batch were up before. */
  lemma BatchWasUp(db: Db, sid: nat, ids: seq<nat>, m: nat)
    requires Good(db) && sid < |db.scopes| && ClaimEnds(db, sid, TakesBatch(ids)) && m in ids
    ensures Up(db, sid, m)
  {
    hide Recover, Wake, NextBatch, CreateTask, Grant, RowsOk, TasksOk, ItemsOk, SequencesOk, Up, Claim;
    RecoverShape(db, sid);
    var r := Recover(db, sid);
    WakeShape(r, sid);
    LineIsActive(Wake(r, sid), sid, m);
    var i :| 0 <= i < |Wake(r, sid).items| && Wake(r, sid).items[i].member == m && Active(Wake(r, sid).items[i]);
    WokenUp(db, sid, r, sid, i);
  }

  /** Whoever is expected after a step was expected before. */
  lemma StepExpects(s: Sys, step: Step, sid: nat, m: nat)
    requires Inv(s) && Enabled(s, step) && Orderly(s, step, sid) && Rested(s.db) && sid < |s.db.scopes|
    requires Expected(Next(s, step).db, sid, m)
    ensures Expected(s.db, sid, m)
    ensures !(exists t :: Executing(Next(s, step).db, sid, t)) ==> Contends(s.db, sid, m)
  {
    hide Inv, Enabled, Next, Orderly, Wants, Up, Rested, MembersStay;
    OrderlyParts(s, step, sid);
    StepNoneGains(s, step);
    StepContends(s, step, sid);
    MembersCount(s, step);
    var next := Next(s, step).db;
    if !Up(next, sid, m) {
      var t :| Executing(next, sid, t) && m in next.tasks[t].members;
      if step.TakeWork? && step.scope == sid {
        ClaimedMember(s, step, sid, t, m);
      } else {
        ElseStarts(s, step, sid);
      }
    } else {
      assert Contends(next, sid, m);
    }
  }

  lemma MembersCount(s: Sys, step: Step)
    requires Inv(s) && Enabled(s, step) && !step.Edit?
    ensures |Next(s, step).db.members| == |s.db.members|
  {
    hide Inv, Enabled, Next;
    StepMembers(s, step);
  }

  lemma ClaimedMember(s: Sys, step: Step, sid: nat, t: int, m: nat)
    requires Inv(s) && Enabled(s, step) && step.TakeWork? && step.scope == sid && sid < |s.db.scopes|
    requires Executing(Next(s, step).db, sid, t) && m in Next(s, step).db.tasks[t].members
    ensures Up(s.db, sid, m) || (exists u :: Executing(s.db, sid, u) && m in s.db.tasks[u].members)
  {
    hide Inv, Next, Enabled, Recover, Wake, NextBatch, CreateTask, Grant, Claim, RowsOk, Up;
    TakenIs(s, step);
    InvRows(s);
    if t < |s.db.tasks| {
      StepStarts(s, step, sid, t);
      assert Executing(s.db, sid, t) && m in s.db.tasks[t].members;
    } else {
      var how := ClaimEndsSomehow(s.db, sid);
      match how {
        case TakesBatch(ids) =>
          BatchTask(s.db, sid, ids);
          BatchWasUp(s.db, sid, ids, m);
        case _ => SameTaskCount(s.db, sid, how);
      }
    }
  }

  lemma BatchTask(db: Db, sid: nat, ids: seq<nat>)
    requires sid < |db.scopes| && ClaimEnds(db, sid, TakesBatch(ids))
    ensures var next := Claim(db, sid).0; |next.tasks| == |db.tasks| + 1 && next.tasks[|db.tasks|].members == ids
  {
    hide Recover, Wake, NextBatch, CreateTask, LeaseItem, Update, Claims, Claim;
    RecoverShape(db, sid);
    WakeShape(Recover(db, sid), sid);
    BatchSize(Wake(Recover(db, sid), sid), sid, ids);
  }

  // ----- the series -----

  /** The rest of a series, planned after a commit, arrived after everybody the commit planned. */
  lemma RestComesLater(s: Sys, step: Step, w: Worker, sid: nat, demands: seq<Demand>, x: Member, m: nat)
    requires Concludes(s, step, w) && w.ticket.scope == sid && sid < |s.db.scopes| && sid < |s.db.demands| && OfRows(demands, s.db.demands[sid])
    requires x in Assignable(Lineup(Found(s.db, w)), demands)
    requires Enabled(s, step) && Orderly(s, step, sid) && CommitsExecution(s, step)
    requires Expected(Next(s, step).db, sid, m) && Rested(s.db) && InTurn(s.db, sid) && Inv(s)
    ensures 0 <= x.memberId && Rows.ComesBefore(s.db, x.memberId, m)
  {
    hide Inv, Enabled, Next, Orderly, Wants, Contends, Rested, CommitsExecution, Found, Lineup, Assignable, OfRows;
    hide Rows.ComesBefore, Executing, InTurn;
    PlannedExpected(s, step, w, sid, demands, x);
    CommitExecutes(s, step, w);
    NothingElseExecutes(s, step, w, sid);
    StepExpects(s, step, sid, m);
    if m in w.ticket.members {
      CommittedNotWanted(s, step, w, m);
    }
    TurnSays(s.db, sid, w.ticket.task, x.memberId, m);
  }

  /** After the commit no execution of the scope is under way. */
  lemma NothingElseExecutes(s: Sys, step: Step, w: Worker, sid: nat)
    requires Concludes(s, step, w) && w.ticket.scope == sid && Enabled(s, step) && Orderly(s, step, sid) && CommitsExecution(s, step)
    requires InTurn(s.db, sid) && Inv(s)
    ensures !(exists t :: Executing(Next(s, step).db, sid, t))
  {
    hide Inv, Enabled, Next, Orderly, CommitsExecution, Contends, Rows.ComesBefore;
    CommitExecutes(s, step, w);
    ElseStarts(s, step, sid);
    OnlyOne(s.db, Next(s, step).db, sid, w.ticket.task);
  }

  lemma OnlyOne(a: Db, b: Db, sid: nat, t: nat)
    requires InTurn(a, sid) && NoneStarts(a, b, sid) && Executing(a, sid, t) && !Executing(b, sid, t)
    ensures !(exists u :: Executing(b, sid, u))
  {
    hide Contends;
  }

  lemma TurnSays(db: Db, sid: nat, t: nat, m: int, n: nat)
    requires InTurn(db, sid) && Executing(db, sid, t) && m >= 0 && m in db.tasks[t].members && n !in db.tasks[t].members && Contends(db, sid, n)
    ensures Rows.ComesBefore(db, m, n)
  {
    hide Contends, Rows.ComesBefore;
  }

  /** None of the task's members can be assigned after the commit. */
  lemma CommittedNotWanted(s: Sys, step: Step, w: Worker, m: nat)
    requires Concludes(s, step, w) && m in w.ticket.members
    requires Enabled(s, step) && CommitsExecution(s, step) && Inv(s)
    ensures !Wants(Next(s, step).db, w.ticket.scope, m)
  {
    hide Inv, Enabled, Next, CommitsExecution, Good, WorkerOk, Plan, Picks, Found, Wants, View, Passes, Valid;
    hide PickedMember, Commit;
    CommitOf(s, step);
    var next := Next(s, step).db;
    if Wants(next, w.ticket.scope, m) {
      FoundPlanned(s, step, w);
      CommitPasses(s, step, w);
      StepNoneGains(s, step);
      WantsInScope(next, w.ticket.scope, m);
      CommitPicksWanted(s.db, w, m);
      PassesValid(s.db, next, Picks(w.decisions), m);
    }
  }

  lemma DemandsStay(s: Sys, step: Step)
    requires Inv(s) && Enabled(s, step) && !step.Edit? && !step.Screen?
    ensures Next(s, step).db.demands == s.db.demands && |Next(s, step).db.scopes| >= |s.db.scopes|
  {
    hide Inv, Enabled, Next, View, Passes, CommitsExecution;
    var picks := StepPasses(s, step);
    DemandsSeen(s.db, Next(s, step).db, picks);
    StepKeepsInv(s, step);
    InvRows(s);
    SameScopes(s, step);
  }

  lemma DemandsSeen(a: Db, b: Db, picks: seq<Decision>)
    requires Passes(View(a), View(b), picks)
    ensures b.demands == a.demands
  {
    hide View, Valid, PickedMember, RowsSame;
    ViewRows(a);
    ViewRows(b);
  }

  lemma SameScopes(s: Sys, step: Step)
    requires Inv(s) && Enabled(s, step)
    ensures |Next(s, step).db.scopes| >= |s.db.scopes|
  {
    hide Inv, Enabled, Next, Fencing.TasksMove;
    Fencing.StepMoves(s, step);
  }

  lemma RowsShown(a: Db, b: Db, x: Member)
    requires MembersStay(a, b) && ShowsRow(b, x)
    ensures ShowsRow(a, x)
  {}

  lemma {:induction false} SortedAppend(a: seq<Member>, b: seq<Member>)
    requires Sorted(Earlier, a) && Sorted(Earlier, b) && forall x, y | x in a && y in b :: Earlier(x, y)
    ensures Sorted(Earlier, a + b)
  {
    hide Earlier;
    var r := a + b;
    forall i, j | 0 <= i < j < |r| ensures Earlier(r[i], r[j]) {
      if i < |a| <= j {
        assert r[i] in a && r[j] in b;
      }
    }
  }

  /** In an orderly run the assignable members of a scope are planned in order of arrival, each of them
      expected from the start. */
  lemma {:induction false} SeriesArrives(s: Sys, steps: seq<Step>, sid: nat, demands: seq<Demand>)
    requires Inv(s) && Runs(s, steps) && OrderlyRun(s, steps, sid) && Rested(s.db) && InTurn(s.db, sid)
    requires sid < |s.db.scopes| && sid < |s.db.demands| && OfRows(demands, s.db.demands[sid])
    ensures Sorted(Earlier, Assignable(SeriesLine(s, steps, sid), demands))
    ensures forall x | x in Assignable(SeriesLine(s, steps, sid), demands) :: ShowsRow(s.db, x) && Expected(s.db, sid, x.memberId)
    decreases |steps|
  {
    hide Inv, Enabled, Next, Orderly, Rested, InTurn, OfRows, CommitsExecution, Lineup, Found, Assignable, Earlier;
    hide Expected, ShowsRow, MembersStay, Sorted;
    if steps == [] {
      NobodySorted(demands);
    } else {
      var n := Next(s, steps[0]);
      OrderlyParts(s, steps[0], sid);
      StepKeepsInv(s, steps[0]);
      StepRests(s, steps[0]);
      StepKeepsTurn(s, steps[0], sid);
      DemandsStay(s, steps[0]);
      StepMembers(s, steps[0]);
      SeriesArrives(n, steps[1..], sid, demands);
      var rest := SeriesLine(n, steps[1..], sid);
      forall x | x in Assignable(rest, demands) ensures ShowsRow(s.db, x) && Expected(s.db, sid, x.memberId) {
        RowsShown(s.db, n.db, x);
        ExpectedIsMember(n.db, sid, x);
        StepExpects(s, steps[0], sid, x.memberId);
      }
      if CommitsIn(s, steps[0], sid) {
        var w := ConcludesOne(s, steps[0]);
        var line := Lineup(Found(s.db, w));
        LineSorted(Found(s.db, w), demands);
        forall x | x in Assignable(line, demands) ensures ShowsRow(s.db, x) && Expected(s.db, sid, x.memberId) {
          PlannedExpected(s, steps[0], w, sid, demands, x);
        }
        forall x, y | x in Assignable(line, demands) && y in Assignable(rest, demands) ensures Earlier(x, y) {
          ExpectedIsMember(n.db, sid, y);
          RestComesLater(s, steps[0], w, sid, demands, x, y.memberId);
          ShownInOrder(s.db, x, y);
        }
        AssignableAppend(line, rest, demands);
        SortedAppend(Assignable(line, demands), Assignable(rest, demands));
        assert SeriesLine(s, steps, sid) == line + rest;
      } else {
        assert SeriesLine(s, steps, sid) == rest;
      }
    }
  }

  lemma NobodySorted(demands: seq<Demand>)
    ensures Assignable([], demands) == [] && Sorted(Earlier, Assignable([], demands))
  {}

  lemma ExpectedIsMember(db: Db, sid: nat, x: Member)
    requires Expected(db, sid, x.memberId)
    ensures x.memberId >= 0
  {}

  lemma ShownInOrder(db: Db, x: Member, y: Member)
    requires ShowsRow(db, x) && ShowsRow(db, y) && Rows.ComesBefore(db, x.memberId, y.memberId)
    ensures Earlier(x, y)
  {
    hide Earlier;
    ComesEarlier(db, x, y);
  }

  lemma LineSorted(s: Snapshot, demands: seq<Demand>)
    ensures Sorted(Earlier, Assignable(Lineup(s), demands))
  {
    hide Earlier, Sorted, SortBy, Assignable;
    MemberOrders();
    SortBySorted(Earlier, s.members);
    AssignableSorted(Lineup(s), demands);
  }

  /** A scope none of whose executions is pending or running. */
  ghost predicate AtRest(db: Db, sid: nat) {
    forall t | 0 <= t < |db.tasks| && db.tasks[t].scope == sid && db.tasks[t].mode == Execute :: db.tasks[t].status !in {TaskPending, TaskRunning}
  }

  lemma RestIsInTurn(db: Db, sid: nat)
    requires AtRest(db, sid)
    ensures InTurn(db, sid)
  {
    hide Contends;
  }

  /** The picks and the assignable members go together, one by one. */
  ghost predicate PickedOnes(picks: seq<Decision>, some: seq<Member>) {
    |picks| == |some| && forall i | 0 <= i < |picks| :: picks[i].memberId == some[i].memberId
  }

  lemma PickedCons(d: Decision, m: Member, picks: seq<Decision>, some: seq<Member>)
    requires PickedOnes(picks, some) && d.memberId == m.memberId
    ensures PickedOnes([d] + picks, [m] + some)
  {}

  lemma {:induction false} PicksInLine(line: seq<Member>, demands: seq<Demand>, t: Tally)
    ensures PickedOnes(Picks(Run(line, demands, t).0), Assignable(line, demands))
    decreases |line|
  {
    hide AnyFeasible, Picks, Absorb, PickedOnes;
    if line == [] {
      NothingRun(demands, t);
      NobodyPicked();
    } else {
      var d := Decide(line[0], demands, t);
      var next := Absorb(line[0], d, t);
      var picks, some := Picks(Run(line[1..], demands, next).0), Assignable(line[1..], demands);
      PicksInLine(line[1..], demands, next);
      PicksCons(d, Run(line[1..], demands, next).0);
      PickedCons(d, line[0], picks, some);
      assert [] + picks == picks && [] + some == some;
    }
  }

  lemma NobodyPicked()
    ensures PickedOnes([], [])
  {}

  /** Nobody is overtaken: from a state in which no execution of the scope is under way, and as long as
      nobody asks for an execution by hand, the members are assigned in order of creation and key,
      through all batches, crashes, retries, pauses and cancellations. */
  lemma NobodyIsOvertaken(s: Sys, steps: seq<Step>, sid: nat, finally: nat, demands: seq<Demand>, t: Tally, i: nat, j: nat)
    requires Inv(s) && Runs(s, steps) && OrderlyRun(s, steps, sid) && Rested(s.db) && AtRest(s.db, sid) && SteadyWindow(s, steps, sid, finally)
    requires DistinctDemands(demands) && Covers(t, demands)
    requires DemandsRead(s.db, sid, NextReading(s, steps, sid, finally), demands, t)
    requires i < j < |SeriesPicks(s, steps, sid)|
    ensures var (a, b) := (SeriesPicks(s, steps, sid)[i].memberId, SeriesPicks(s, steps, sid)[j].memberId);
            && 0 <= a < |s.db.members| && 0 <= b < |s.db.members|
            && (s.db.members[a].createdAt < s.db.members[b].createdAt || (s.db.members[a].createdAt == s.db.members[b].createdAt && a <= b))
  {
    hide Inv, Runs, OrderlyRun, Rested, AtRest, SteadyWindow, DemandsRead, Covers, SeriesLine, SeriesPicks, InTurn;
    hide Assignable, Expected, Run, Picks, Earlier;
    OrderlyIsEngine(s, steps, sid);
    SeriesIsOneRun(s, steps, sid, finally, demands, t);
    ReadRows(s.db, sid, NextReading(s, steps, sid, finally), demands, t);
    RestIsInTurn(s.db, sid);
    SeriesArrives(s, steps, sid, demands);
    var line := SeriesLine(s, steps, sid);
    PicksInLine(line, demands, t);
    var some := Assignable(line, demands);
    assert some[i] in some && some[j] in some;
    EarlierOnRows(some[i], some[j]);
  }

  lemma EarlierOnRows(x: Member, y: Member)
    requires Earlier(x, y)
    ensures x.createdAt < y.createdAt || (x.createdAt == y.createdAt && x.memberId <= y.memberId)
  {
    var a, b := Arrival(x), Arrival(y);
    assert a[0] == x.createdAt && b[0] == y.createdAt && a[1..][0] == x.memberId && b[1..][0] == y.memberId;
    assert a[0] == b[0] ==> LexLe(a[1..], b[1..]);
  }

  lemma ReadRows(db: Db, sid: nat, at: int, demands: seq<Demand>, t: Tally)
    requires DemandsRead(db, sid, at, demands, t)
    ensures sid < |db.scopes| && sid < |db.demands| && OfRows(demands, db.demands[sid])
  {
    hide Suppliers, LastSequence;
    var shown := Each(SnapshotDemand(db, sid, at), db.demands[sid]);
    forall k | 0 <= k < |db.demands[sid]| ensures OfRow(demands[k], db.demands[sid][k]) {
      assert shown[k] == Refreshed(demands, t)[k];
    }
  }

  /** Batching does not show in the protocol: from a state in which no execution of the scope is under way,
      and as long as nobody asks for one by hand, the picks a scope's executions commit in the whole run
      are those of the one plan for all members of their tasks, made at the start; and in the end the
      tables show the quantities with which that plan ends. */
  lemma BatchesAreOnePlan(s: Sys, steps: seq<Step>, sid: nat, finally: nat, whole: Snapshot)
    requires Inv(s) && Runs(s, steps) && OrderlyRun(s, steps, sid) && Rested(s.db) && AtRest(s.db, sid) && SteadyWindow(s, steps, sid, finally)
    requires NextReading(s, steps, sid, finally) >= 0
    requires Buildable(s.db, AllocationLinearisation.Batch(sid, SeriesIds(s, steps, sid)))
    requires whole == Build(s.db, AllocationLinearisation.Batch(sid, SeriesIds(s, steps, sid)), NextReading(s, steps, sid, finally), 0)
    ensures SeriesPicks(s, steps, sid) == Picks(Plan(whole))
    ensures DemandsRead(After(s, steps).db, sid, finally, whole.demands, Outcome(whole).1)
  {
    hide Inv, Runs, OrderlyRun, Rested, AtRest, SteadyWindow, DemandsRead, SeriesLine, SeriesPicks, SeriesIds, InTurn;
    hide Assignable, Expected, Plan, Picks, Earlier, Buildable, Build, NextReading, Covers;
    OrderlyIsEngine(s, steps, sid);
    InvRows(s);
    WholeReads(s.db, sid, SeriesIds(s, steps, sid), NextReading(s, steps, sid, finally));
    ReadRows(s.db, sid, NextReading(s, steps, sid, finally), whole.demands, Opening(whole));
    RestIsInTurn(s.db, sid);
    SeriesArrives(s, steps, sid, whole.demands);
    SeriesIsOnePlan(s, steps, sid, finally, whole);
  }
}
