/** The tables as mutable state. Every method is one transaction, written statement by statement as
    the program issues them, and is proved to have exactly the effect of its specification. A
    transaction that fails part-way leaves the tables alone. */
module AllocationDatabase {
  import opened Orders
  import opened AllocationTypes
  import opened AllocationPolicy
  import opened AllocationCanonical
  import opened AllocationStore

  class Database {
    var now: nat
    var nextToken: nat
    var scopes: seq<Scope>
    var tasks: seq<Task>
    var items: seq<Item>
    var plans: map<(nat, nat), PlanRow>
    var members: seq<MemberRow>
    var quals: seq<Qualification>
    var workflows: seq<Workflow>
    var attempts: seq<Attempt>
    var closed: set<nat>
    var demands: seq<seq<DemandRow>>
    var policyRevision: nat
    var changes: seq<nat>

    function State(): Db
      reads this
    {
      Db(now, nextToken, scopes, tasks, items, plans, members, quals, workflows, attempts, closed, demands,
         policyRevision, changes)
    }

    constructor (db: Db)
      ensures State() == db
    {
      now, nextToken, scopes, tasks, items, plans := db.now, db.nextToken, db.scopes, db.tasks, db.items, db.plans;
      members, quals, workflows, attempts, closed := db.members, db.quals, db.workflows, db.attempts, db.closed;
      demands, policyRevision, changes := db.demands, db.policyRevision, db.changes;
    }

    // ----- creating a task -----

    method TaskWithKey(key: Key) returns (found: Option<nat>)
      ensures found == FindKey(tasks, key)
    {
      found := None;
      for t := 0 to |tasks|
        invariant found == FindKey(tasks[..t], key)
      {
        assert tasks[..t + 1][..t] == tasks[..t];
        if tasks[t].key == key {
          found := Some(t);
        }
      }
      assert tasks[..|tasks|] == tasks;
    }

    method LatestQualification(m: nat) returns (found: Option<nat>)
      ensures found == Latest(quals, m)
    {
      found := None;
      for q := 0 to |quals|
        invariant found == Latest(quals[..q], m)
      {
        assert quals[..q + 1][..q] == quals[..q];
        if quals[q].member == m {
          found := Some(q);
        }
      }
      assert quals[..|quals|] == quals;
    }

    method WorkActive(q: nat) returns (taken: bool)
      ensures taken <==> HasActive(items, q)
    {
      taken := false;
      for i := 0 to |items|
        invariant taken <==> HasActive(items[..i], q)
      {
        ActiveSoFar(items, i, q);
        if items[i].qualification == q && Active(items[i]) {
          taken := true;
        }
      }
      assert items[..|items|] == items;
    }

    method InsertWork(q: nat, m: nat, task: Option<nat>)
      modifies this`items
      ensures items == InsertItem(old(items), q, m, task)
    {
      var taken := WorkActive(q);
      if !taken {
        items := items + [Item(m, q, task, ItemPending, 0)];
      }
    }

    /** The work items of a new execution: one for each member's newest qualification unless it is
        active already, and whatever else of these members is pending and unattached. */
    method Enqueue(ids: seq<nat>, t: nat)
      modifies this`items
      ensures items == Update(InsertItems(old(items), quals, ids, t), AttachItem(ids, t))
    {
      for i := 0 to |ids|
        invariant items == InsertItems(old(items), quals, ids[..i], t)
      {
        assert ids[..i + 1][..i] == ids[..i];
        var q := LatestQualification(ids[i]);
        if q.Some? {
          InsertWork(q.value, ids[i], Some(t));
        }
      }
      assert ids[..|ids|] == ids;
      items := Update(items, AttachItem(ids, t));
    }

    /** A new task row, and its work unless it only simulates. */
    method AddTask(task: Task) returns (t: nat)
      modifies this`tasks, this`items
      ensures t == |old(tasks)| && tasks == old(tasks) + [task]
      ensures items == if task.mode == Simulate then old(items)
                       else Update(InsertItems(old(items), quals, task.members, t), AttachItem(task.members, t))
    {
      t := |tasks|;
      tasks := tasks + [task];
      if task.mode != Simulate {
        Enqueue(task.members, t);
      }
    }

    method Create(sid: nat, ids: seq<nat>, mode: Mode, key: Option<Key>, actor: Option<nat>) returns (r: CreateResult)
      requires sid < |scopes|
      modifies this`nextToken, this`tasks, this`items
      ensures (State(), r) == CreateTask(old(State()), sid, ids, mode, key, actor)
    {
      hide InsertItems, Update, AttachItem, FindKey;
      if (scopes[sid].paused && mode != Simulate) || |ids| == 0 || |ids| > TASK_LIMIT {
        return Refused;
      }
      var k := if key.Some? then key.value else TokenKey(nextToken);
      if key.None? {
        nextToken := nextToken + 1;
      }
      var existing := TaskWithKey(k);
      if existing.None? {
        var t := AddTask(Task(sid, mode, TaskPending, 1, k, ids, actor, 0));
        return Created(t);
      }
      var found := tasks[existing.value];
      var same := found.scope == sid && found.members == ids && found.mode == mode && found.createdBy == actor;
      r := if same then Existing(existing.value) else Refused;
    }

    // ----- claiming -----

    method OldestPending(sid: nat, paused: bool) returns (found: Option<nat>)
      ensures found == FirstPending(tasks, sid, paused)
    {
      found := None;
      for t := 0 to |tasks|
        invariant found == FirstPending(tasks[..t], sid, paused)
      {
        assert tasks[..t + 1][..t] == tasks[..t];
        if found.None? && Claims(tasks[t], sid, paused) {
          found := Some(t);
        }
      }
      assert tasks[..|tasks|] == tasks;
    }

    method Hand(sid: nat, t: nat) returns (tk: Ticket)
      requires sid < |scopes| && t < |tasks|
      modifies this`nextToken, this`scopes, this`tasks, this`items
      ensures (State(), tk) == Grant(old(State()), sid, t)
    {
      var fence := nextToken;
      nextToken := nextToken + 1;
      scopes := scopes[sid := scopes[sid].(leaseToken := fence, leaseUntil := Some(now + LEASE))];
      tasks := tasks[t := tasks[t].(status := TaskRunning, workerToken := fence)];
      if tasks[t].mode != Simulate {
        items := Update(items, LeaseItem(tasks[t].members, t));
      }
      tk := Ticket(sid, t, tasks[t].generation, fence, tasks[t].mode, tasks[t].members);
    }

    method ClaimScope(sid: nat) returns (tk: Option<Ticket>)
      requires sid < |scopes|
      modifies this`nextToken, this`scopes, this`tasks, this`items
      ensures (State(), tk) == Claim(old(State()), sid)
    {
      tasks := Update(tasks, RecoverTask(sid));
      items := Update(items, RecoverItem(tasks, sid));
      assert State() == Recover(old(State()), sid);
      ghost var recovered := State();
      var paused := scopes[sid].paused;
      var t := OldestPending(sid, paused);
      if t.None? {
        if paused {
          return None;
        }
        items := Wake(State(), sid).items;
        assert State() == Wake(recovered, sid);
        ghost var woken := State();
        var ids := NextBatch(State(), sid);
        if ids == [] {
          return None;
        }
        var made := Create(sid, ids, Execute, None, None);
        if !made.Created? {
          return None;
        }
        var ticket := Hand(sid, made.task);
        return Some(ticket);
      }
      var ticket := Hand(sid, t.value);
      tk := Some(ticket);
    }

    method FreeLease(sid: nat, token: nat)
      requires sid < |scopes|
      modifies this`scopes
      ensures State() == Release(old(State()), sid, token)
    {
      if scopes[sid].leaseToken == token {
        scopes := scopes[sid := scopes[sid].(leaseToken := 0, leaseUntil := None)];
      }
    }

    // ----- preparing a request -----

    /** The clean-up of the members a snapshot leaves out: the new rows, or nothing when one of the
        members' applications is closed. */
    method CleanRows(ids: seq<nat>) returns (done: Option<(seq<MemberRow>, seq<Item>, seq<nat>)>)
      ensures done.None? <==> CleanBlocked(State(), ids)
      ensures done.Some? ==>
                Clean(State(), ids) == State().(members := done.value.0, items := done.value.1, changes := done.value.2)
    {
      hide Valid, TouchedScopes, Displaced;
      var rows, work, log := members, items, changes;
      for m := 0 to |members|
        invariant |rows| == |members| && |work| == |items|
        invariant forall k | 0 <= k < |members| ::
          rows[k] == if k < m && Restated(State(), ids, k)
                     then members[k].(status := NeedsReanalysis, revision := members[k].revision + 1) else members[k]
        invariant forall i | 0 <= i < |items| ::
          work[i] == if items[i].member < m then CleanItem(State(), ids)(items[i]) else items[i]
        invariant log == changes + CleanChanges(State(), ids, m)
        invariant forall k | 0 <= k < m && Restated(State(), ids, k) :: members[k].resume !in closed
      {
        if m in ids && !Valid(State(), m) {
          if CleanStatus(State(), m) == NeedsReanalysis {
            if members[m].resume in closed {
              return None;
            }
            rows := rows[m := rows[m].(status := NeedsReanalysis, revision := rows[m].revision + 1)];
            log := log + TouchedScopes(members, members[m].candidate, |scopes|);
          }
          work := Update(work, (i: Item) => if i.member == m && Unsettled(i) then i.(status := ItemCancelled) else i);
        }
      }
      assert work == Update(items, CleanItem(State(), ids)) by {
        forall i | 0 <= i < |items| ensures work[i] == CleanItem(State(), ids)(items[i]) {}
      }
      done := Some((rows, work, log));
    }

    method Finish(tk: Ticket)
      requires tk.scope < |scopes| && tk.task < |tasks|
      modifies this`tasks, this`scopes
      ensures State() == Complete(old(State()), tk)
    {
      tasks := tasks[tk.task := tasks[tk.task].(status := TaskCompleted)];
      FreeLease(tk.scope, tk.token);
    }

    method PrepareRequest(tk: Ticket, pin: nat, authorized: bool) returns (r: ProcessResult)
      modifies this`members, this`items, this`changes, this`tasks, this`scopes
      ensures (State(), r) == Process(old(State()), tk, pin, authorized)
    {
      hide Clean, Build, Canonical, Complete, CleanBlocked, Buildable, Revision;
      ghost var before := State();
      if !LeaseHeld(State(), tk) {
        return ProcessFailed(LeaseLost);
      }
      if !authorized {
        return ProcessFailed(Denied);
      }
      if !Buildable(State(), tk) {
        return ProcessFailed(OtherFailure);
      }
      var s := Build(State(), tk, now, 0);
      if tk.mode == Execute {
        var cleaned := CleanRows(tk.members);
        if cleaned.None? {
          return ProcessFailed(OtherFailure);
        }
        members, items, changes := cleaned.value.0, cleaned.value.1, cleaned.value.2;
      }
      s := s.(scopeRevision := Revision(State(), tk.scope));
      RevisionOnly(before, tk, now, Revision(State(), tk.scope));
      if s.members == [] {
        Finish(tk);
        return NothingEligible;
      }
      var hash := SnapshotHash(s);
      r := Computing(Request(tk.task, tk.generation, pin, s, hash));
    }

    // ----- committing -----

    /** Rolls back what the decision loop wrote. */
    method Rollback(db: Db)
      modifies this`attempts, this`workflows, this`members, this`items, this`changes
      ensures attempts == db.attempts && workflows == db.workflows && members == db.members
      ensures items == db.items && changes == db.changes
    {
      attempts, workflows, members, items, changes := db.attempts, db.workflows, db.members, db.items, db.changes;
    }

    method Record(tk: Ticket, q: Request, decisions: seq<Decision>, status: PlanStatus)
      modifies this`plans
      ensures State() == RecordPlan(old(State()), tk, q, decisions, status)
    {
      if (tk.task, tk.generation) !in plans {
        plans := plans[(tk.task, tk.generation) := PlanRow(q.hash, decisions, status)];
      }
    }

    /** The Kernel's answer is taken only if it is for this very request and carries the plan computed
        here independently; it is recorded either way. */
    method Receive(tk: Ticket, q: Request, r: Response) returns (accepted: bool)
      modifies this`plans
      ensures accepted <==> Accepts(q, r)
      ensures State() == RecordPlan(old(State()), tk, q, r.decisions, if accepted then Proposed else InvalidPlan)
    {
      hide Plan;
      var expected := ExpectedAllocation(q.snapshot);
      accepted := r.task == q.task && r.generation == q.generation && r.hash == q.hash && r.pin == q.pin && r.done
                  && r.decisions == expected;
      Record(tk, q, r.decisions, if accepted then Proposed else InvalidPlan);
    }

    method Assign(tk: Ticket, d: Decision)
      requires 0 <= d.memberId < |members| && d.sequence >= 0 && d.qualificationRef >= 0
      modifies this`attempts, this`workflows, this`members, this`items, this`changes
      ensures State() == AssignMember(old(State()), tk, d)
    {
      hide TouchedScopes, Update, SettleItem, Allocate;
      var row := members[d.memberId];
      attempts := attempts + [NewAttempt(row, now, tk.scope, d)];
      if row.candidate < |workflows| {
        workflows := workflows[row.candidate := workflows[row.candidate].(status := InProgress, currentResume := Some(row.resume))];
      }
      changes := changes + TouchedScopes(members, row.candidate, |scopes|);
      members := Allocate(members, d.memberId);
      items := Update(items, SettleItem(d.memberId));
    }

    /** One turn of the decision loop; false when an assignment is refused. */
    method ApplyDecision(tk: Ticket, d: Decision) returns (done: bool)
      modifies this`attempts, this`workflows, this`members, this`items, this`changes
      ensures ApplyOne(old(State()), tk, d) == if done then Some(State()) else None
    {
      hide AssignMember, Update, WaitItem;
      if tk.mode == Simulate {
        return true;
      }
      if d.action == Wait {
        items := Update(items, WaitItem(d.memberId, tk.task));
        return true;
      }
      if !(0 <= d.memberId < |members| && d.sequence >= 0 && d.qualificationRef >= 0) || members[d.memberId].resume in closed {
        return false;
      }
      Assign(tk, d);
      done := true;
    }

    /** The decision loop; false when an assignment is refused. */
    method Apply(tk: Ticket, decisions: seq<Decision>) returns (done: bool, top: int)
      modifies this`attempts, this`workflows, this`members, this`items, this`changes
      ensures done ==> ApplyDecisions(old(State()), tk, decisions) == Some(State())
      ensures done ==> top == if tk.mode == Simulate then 0 else MaxSequence(decisions)
      ensures !done ==> ApplyDecisions(old(State()), tk, decisions) == None
    {
      hide ApplyOne;
      ghost var start := State();
      top := 0;
      for i := 0 to |decisions|
        invariant ApplyDecisions(start, tk, decisions[..i]) == Some(State())
        invariant top == if tk.mode == Simulate then 0 else MaxSequence(decisions[..i])
      {
        PrefixSteps(start, tk, decisions, i);
        var ok := ApplyDecision(tk, decisions[i]);
        if !ok {
          PrefixRefused(start, tk, decisions, i + 1);
          return false, 0;
        }
        if tk.mode != Simulate && decisions[i].action.Assign? && decisions[i].sequence > top {
          top := decisions[i].sequence;
        }
      }
      assert decisions[..|decisions|] == decisions;
      done := true;
    }

    method SettleRows(tk: Ticket, top: int)
      requires tk.scope < |scopes| && tk.task < |tasks| && (tk.task, tk.generation) in plans
      modifies this`items, this`scopes, this`plans, this`tasks
      ensures State() == Settle(old(State()), tk, top)
    {
      hide Update, ReturnItem, ObserveItem, Complete, LastChange;
      if tk.mode == Simulate {
        items := Update(items, ReturnItem(tk.task));
      }
      scopes := scopes[tk.scope := Advance(scopes[tk.scope], if tk.mode == Simulate then 0 else top)];
      items := Update(items, ObserveItem(tk.task, Revision(State(), tk.scope)));
      var key := (tk.task, tk.generation);
      plans := plans[key := plans[key].(status := if tk.mode == Simulate then Simulated else Committed)];
      Finish(tk);
    }

    method CommitPlan(tk: Ticket, q: Request, decisions: seq<Decision>, authorized: bool) returns (r: CommitResult)
      requires q.snapshot.at >= 0
      modifies this
      ensures (State(), r) == Commit(old(State()), tk, q, decisions, authorized)
    {
      hide Build, Canonical, Buildable, Revision, ApplyDecisions, Settle, MaxSequence;
      var start := State();
      if !LeaseHeld(start, tk) {
        return CommitFailed(LeaseLost);
      }
      if !authorized {
        return CommitFailed(Denied);
      }
      if now > q.snapshot.at + SNAPSHOT_AGE {
        return CommitFailed(SnapshotStale);
      }
      if !Buildable(start, tk) {
        return CommitFailed(OtherFailure);
      }
      var hash := SnapshotHash(Build(start, tk, q.snapshot.at, Revision(start, tk.scope)));
      if hash != q.hash {
        return CommitFailed(SnapshotStale);
      }
      if (tk.task, tk.generation) !in plans {
        return CommitFailed(OtherFailure);
      }
      var done, top := Apply(tk, decisions);
      if !done {
        Rollback(start);
        return CommitFailed(OtherFailure);
      }
      TopOfSimulation(State(), tk, top, MaxSequence(decisions));
      SettleRows(tk, top);
      r := CommitDone;
    }

    // ----- failing and the other writers -----

    method Fail(tk: Ticket, failure: Failure)
      modifies this`tasks, this`plans, this`items, this`scopes
      ensures State() == FinishFailure(old(State()), tk, failure)
    {
      hide Update, FailItem, DropPlans;
      if !LeaseHeld(State(), tk) {
        return;
      }
      var status, generation := TaskFailed, tk.generation;
      if failure == SnapshotStale && generation < MAX_GENERATION {
        status := TaskPending;
        generation := generation + 1;
      }
      tasks := tasks[tk.task := tasks[tk.task].(status := status, generation := generation, workerToken := 0)];
      plans := DropPlans(plans, {(tk.task, tk.generation)}, if failure == SnapshotStale then StalePlan else InvalidPlan);
      items := Update(items, FailItem(tk.task, if status == TaskPending then ItemPending else ItemFailed));
      FreeLease(tk.scope, tk.token);
    }

    method Cancel(t: nat)
      requires t < |tasks| && tasks[t].scope < |scopes|
      modifies this`tasks, this`plans, this`items, this`scopes
      ensures State() == CancelTask(old(State()), t)
    {
      hide Update, CancelItem, DropPlans, PlanKeys;
      if tasks[t].status == TaskCompleted {
        return;
      }
      tasks := tasks[t := tasks[t].(status := TaskCancelled)];
      plans := DropPlans(plans, PlanKeys(plans, {t}), CancelledPlan);
      items := Update(items, CancelItem(t));
      FreeLease(tasks[t].scope, tasks[t].workerToken);
    }

    method Retry(t: nat, key: string, actor: Option<nat>)
      requires t < |tasks| && tasks[t].scope < |scopes|
      modifies this`nextToken, this`tasks, this`items
      ensures State() == RetryTask(old(State()), t, key, actor)
    {
      hide CreateTask;
      var task := tasks[t];
      if task.status == TaskPending || task.status == TaskRunning || key == "" {
        return;
      }
      var made := Create(task.scope, task.members, task.mode, Some(CallerKey(key)), actor);
    }

    method Pause(sid: nat, paused: bool, expectedRevision: nat)
      requires sid < |scopes|
      modifies this`scopes, this`tasks, this`plans, this`items
      ensures State() == SetPaused(old(State()), sid, paused, expectedRevision)
    {
      hide Update, PauseItem, PauseTask, DropPlans, PlanKeys;
      var s := scopes[sid];
      if s.revision != expectedRevision {
        return;
      }
      if !paused && s.leaseUntil.Some? && s.leaseUntil.value > now {
        return;
      }
      scopes := scopes[sid := s.(paused := paused, epoch := s.epoch + 1, revision := s.revision + 1, leaseToken := 0, leaseUntil := None)];
      tasks := Update(tasks, PauseTask(sid));
      var stopped := CancelledOf(tasks, sid);
      plans := DropPlans(plans, PlanKeys(plans, stopped), CancelledPlan);
      items := Update(items, PauseItem(tasks, sid));
    }

    method QualificationAt(m: nat, revision: nat) returns (found: Option<nat>)
      ensures found == FindQualification(quals, m, revision)
    {
      found := None;
      for q := 0 to |quals|
        invariant found == FindQualification(quals[..q], m, revision)
      {
        assert quals[..q + 1][..q] == quals[..q];
        if quals[q].member == m && quals[q].revision == revision {
          found := Some(q);
        }
      }
      assert quals[..|quals|] == quals;
    }

    method Screen(q: Qualification)
      modifies this`quals, this`items
      ensures State() == SaveQualification(old(State()), q)
    {
      hide Update, SupersedeItem, InsertItem, FindQualification;
      var found := QualificationAt(q.member, q.revision);
      var id := |quals|;
      if found.Some? {
        id := found.value;
      } else {
        quals := quals + [q];
      }
      items := Update(items, SupersedeItem(q.member, id));
      InsertWork(id, q.member, None);
    }
  }

  lemma ActiveSoFar(items: seq<Item>, i: nat, q: nat)
    requires i < |items|
    ensures HasActive(items[..i + 1], q) <==> HasActive(items[..i], q) || (items[i].qualification == q && Active(items[i]))
  {
    var before, now := items[..i], items[..i + 1];
    assert now == before + [items[i]];
    if j :| 0 <= j < |now| && now[j].qualification == q && Active(now[j]) {
      assert j < i ==> before[j] == now[j];
    }
    if j :| 0 <= j < |before| && before[j].qualification == q && Active(before[j]) {
      assert now[j] == before[j];
    }
    assert now[i] == items[i];
  }

  lemma RevisionOnly(db: Db, tk: Ticket, at: nat, revision: nat)
    requires Buildable(db, tk)
    ensures Build(db, tk, at, revision) == Build(db, tk, at, 0).(scopeRevision := revision)
  {}

  function CancelledOf(tasks: seq<Task>, sid: nat): set<nat> {
    set t | 0 <= t < |tasks| && tasks[t].scope == sid && tasks[t].status == TaskCancelled
  }

  lemma PrefixSteps(db: Db, tk: Ticket, ds: seq<Decision>, i: nat)
    requires i < |ds|
    ensures ds[..i + 1][..|ds[..i + 1]| - 1] == ds[..i] && ds[..i + 1][|ds[..i + 1]| - 1] == ds[i] && ds[..i + 1] != []
  {}

  /** Once a prefix is refused, so is the whole list. */
  lemma {:induction false} PrefixRefused(db: Db, tk: Ticket, ds: seq<Decision>, n: nat)
    requires n <= |ds| && ApplyDecisions(db, tk, ds[..n]) == None
    ensures ApplyDecisions(db, tk, ds) == None
    decreases |ds| - n
  {
    if n == |ds| {
      assert ds[..n] == ds;
    } else {
      PrefixSteps(db, tk, ds, n);
      PrefixRefused(db, tk, ds, n + 1);
    }
  }

  lemma TopOfSimulation(db: Db, tk: Ticket, a: int, b: int)
    requires tk.scope < |db.scopes| && tk.task < |db.tasks| && (tk.task, tk.generation) in db.plans
    requires a == if tk.mode == Simulate then 0 else b
    ensures Settle(db, tk, a) == Settle(db, tk, b)
  {}
}
