/** Every transaction keeps the invariant; hence it holds in every run. */
module AllocationInvariants {
  import opened Orders
  import opened AllocationTypes
  import opened AllocationPolicy
  import opened AllocationCanonical
  import opened AllocationStore
  import opened AllocationProtocol
  import opened AllocationCommit

  ghost predicate Good(db: Db) { RowsOk(db) && TasksOk(db) && ItemsOk(db) && SequencesOk(db) }

  /** How the tables may change under a worker's feet: a fence it holds is kept or destroyed, never
      handed out again, and nothing new is leased under it. */
  ghost predicate Evolves(a: Db, b: Db) {
    && a.nextToken <= b.nextToken && a.now <= b.now
    && TasksEvolve(a.tasks, b.tasks, a.nextToken)
    && ItemsEvolve(a.items, b, a.nextToken)
  }

  ghost predicate TasksEvolve(a: seq<Task>, b: seq<Task>, token: nat) {
    && |a| <= |b|
    && (forall t | 0 <= t < |a| ::
          && b[t] == a[t].(status := b[t].status, generation := b[t].generation, workerToken := b[t].workerToken)
          && a[t].generation <= b[t].generation
          && (b[t].status == TaskRunning && b[t].workerToken < token ==> a[t] == b[t]))
    && (forall t | |a| <= t < |b| :: b[t].status == TaskRunning ==> b[t].workerToken >= token)
  }

  ghost predicate ItemsEvolve(a: seq<Item>, b: Db, token: nat) {
    forall i | 0 <= i < |b.items| && LeasedUnder(b, b.items[i], token) :: i < |a| && a[i] == b.items[i]
  }

  predicate LeasedUnder(db: Db, i: Item, token: nat) {
    && i.status == ItemLeased && i.task.Some? && i.task.value < |db.tasks|
    && db.tasks[i.task.value].status == TaskRunning && db.tasks[i.task.value].workerToken < token
  }

  lemma WorkersSurvive(a: Db, b: Db, w: Worker)
    requires Evolves(a, b) && WorkerOk(a, w)
    ensures WorkerOk(b, w)
  {
    hide InSnapshot, WellKeyed, Plan, Canonical;
    TicketEvolves(a, b, w.ticket);
    if Fenced(b, w.ticket) && (w.Waiting4Kernel? || w.Accepted?) {
      CoverEvolves(a, b, w.ticket, w.request.snapshot);
    }
  }

  lemma TicketEvolves(a: Db, b: Db, tk: Ticket)
    requires Evolves(a, b) && TicketOk(a, tk)
    ensures TicketOk(b, tk) && (Fenced(b, tk) ==> Fenced(a, tk))
  {}

  lemma CoverEvolves(a: Db, b: Db, tk: Ticket, s: Snapshot)
    requires Evolves(a, b) && TicketOk(a, tk) && Fenced(b, tk) && LeasedCovered(a, tk, s)
    ensures LeasedCovered(b, tk, s)
  {
    hide InSnapshot;
    forall i | 0 <= i < |b.items| && b.items[i].status == ItemLeased && b.items[i].task == Some(tk.task)
      ensures InSnapshot(b.items[i].member, s)
    {
      assert LeasedUnder(b, b.items[i], a.nextToken);
    }
  }

  lemma EvolvesReflexive(db: Db)
    ensures Evolves(db, db)
  {}

  lemma EvolvesTransitive(a: Db, b: Db, c: Db)
    requires Evolves(a, b) && Evolves(b, c)
    ensures Evolves(a, c)
  {
    TasksEvolveOn(a.tasks, b.tasks, c.tasks, a.nextToken, b.nextToken);
    forall i | 0 <= i < |c.items| && LeasedUnder(c, c.items[i], a.nextToken)
      ensures i < |a.items| && a.items[i] == c.items[i]
    {
      assert LeasedUnder(c, c.items[i], b.nextToken);
      assert LeasedUnder(b, b.items[i], a.nextToken);
    }
  }

  lemma TasksEvolveOn(a: seq<Task>, b: seq<Task>, c: seq<Task>, token: nat, later: nat)
    requires token <= later && TasksEvolve(a, b, token) && TasksEvolve(b, c, later)
    ensures TasksEvolve(a, c, token)
  {
    forall t | 0 <= t < |a|
      ensures c[t] == a[t].(status := c[t].status, generation := c[t].generation, workerToken := c[t].workerToken)
      ensures a[t].generation <= c[t].generation
      ensures c[t].status == TaskRunning && c[t].workerToken < token ==> a[t] == c[t]
    {
      assert b[t].generation <= c[t].generation;
    }
    forall t | |a| <= t < |c| && c[t].status == TaskRunning ensures c[t].workerToken >= token {
      if t < |b| {
        assert c[t].workerToken < later ==> b[t] == c[t];
      }
    }
  }

  /** The row and sequence facts depend on these parts of the database only. */
  lemma Frame(a: Db, b: Db)
    requires RowsOk(a) && SequencesOk(a)
    requires b.demands == a.demands && b.members == a.members && b.quals == a.quals && b.workflows == a.workflows
    requires b.attempts == a.attempts && |b.scopes| == |a.scopes|
    requires forall s | 0 <= s < |a.scopes| :: b.scopes[s].nextSequence >= a.scopes[s].nextSequence
    ensures RowsOk(b) && SequencesOk(b)
  {}

  // ----- creating -----

  /** Work for these members may be attached to the task. */
  ghost predicate OpenFor(tasks: seq<Task>, task: nat, ids: seq<nat>) {
    && task < |tasks| && tasks[task].mode == Execute && tasks[task].status != TaskRunning
    && forall m | m in ids :: m in tasks[task].members
  }

  lemma {:induction false} InsertItemsKeep(db: Db, ids: seq<nat>, task: nat)
    requires RowsOk(db) && ItemsOk(db) && OpenFor(db.tasks, task, ids)
    ensures var items := InsertItems(db.items, db.quals, ids, task);
            && ItemsOk(db.(items := items)) && |db.items| <= |items| && items[..|db.items|] == db.items
            && forall i | |db.items| <= i < |items| :: items[i].status == ItemPending
  {
    if ids == [] {
      assert db.(items := db.items) == db;
    } else {
      InsertItemsKeep(db, ids[..|ids| - 1], task);
      LatestIsQualification(db.quals, ids[|ids| - 1]);
    }
  }

  lemma AttachKeeps(db: Db, ids: seq<nat>, task: nat)
    requires ItemsOk(db) && OpenFor(db.tasks, task, ids)
    ensures ItemsOk(db.(items := Update(db.items, AttachItem(ids, task))))
  {}

  /** A created task is the last one: pending, unfenced, in its first generation. */
  lemma CreatedTask(db: Db, sid: nat, ids: seq<nat>, mode: Mode, key: Option<Key>, actor: Option<nat>)
    requires sid < |db.scopes| && (key.Some? ==> KeyUsed(key.value, db.nextToken))
    ensures var r := CreateTask(db, sid, ids, mode, key, actor);
            r.1.Created? ==>
              && 1 <= |ids| <= TASK_LIMIT && (db.scopes[sid].paused ==> mode == Simulate)
              && db.nextToken <= r.0.nextToken
              && exists k :: KeyUsed(k, r.0.nextToken) && r.0.tasks == db.tasks + [Task(sid, mode, TaskPending, 1, k, ids, actor, 0)]
  {
    hide InsertItems, FindKey, Update, AttachItem;
  }

  lemma TaskAppended(db: Db, next: Db, task: Task)
    requires TasksOk(db) && db.nextToken <= next.nextToken && next.tasks == db.tasks + [task]
    requires next.scopes == db.scopes && next.members == db.members
    requires task.status == TaskPending && task.workerToken == 0 && TaskOk(next, task)
    ensures TasksOk(next) && TasksEvolve(db.tasks, next.tasks, db.nextToken)
  {
    forall t | 0 <= t < |next.tasks| ensures TaskOk(next, next.tasks[t]) {
      assert t < |db.tasks| ==> TaskOk(db, db.tasks[t]);
    }
  }

  lemma CreateTasks(db: Db, sid: nat, ids: seq<nat>, mode: Mode, key: Option<Key>, actor: Option<nat>)
    requires TasksOk(db) && sid < |db.scopes| && MembersInScope(db, sid, ids) && (key.Some? ==> KeyUsed(key.value, db.nextToken))
    ensures var next := CreateTask(db, sid, ids, mode, key, actor).0;
            TasksOk(next) && TasksEvolve(db.tasks, next.tasks, db.nextToken)
  {
    hide CreateTask, TasksEvolve;
    var r := CreateTask(db, sid, ids, mode, key, actor);
    CreatedTask(db, sid, ids, mode, key, actor);
    if r.1.Created? {
      var k :| KeyUsed(k, r.0.nextToken) && r.0.tasks == db.tasks + [Task(sid, mode, TaskPending, 1, k, ids, actor, 0)];
      TaskAppended(db, r.0, Task(sid, mode, TaskPending, 1, k, ids, actor, 0));
    } else {
      TasksSame(db, r.0);
      CreateTokens(db, sid, ids, mode, key, actor);
    }
  }

  lemma CreateTokens(db: Db, sid: nat, ids: seq<nat>, mode: Mode, key: Option<Key>, actor: Option<nat>)
    requires sid < |db.scopes|
    ensures db.nextToken <= CreateTask(db, sid, ids, mode, key, actor).0.nextToken
  {
    hide InsertItems, FindKey, Update, AttachItem;
  }

  lemma TasksSame(db: Db, next: Db)
    requires TasksOk(db)
    ensures db.nextToken <= next.nextToken && next.tasks == db.tasks && next.scopes == db.scopes && next.members == db.members
            ==> TasksOk(next) && TasksEvolve(db.tasks, next.tasks, db.nextToken)
  {
    if db.nextToken <= next.nextToken && next.tasks == db.tasks && next.scopes == db.scopes && next.members == db.members {
      forall t | 0 <= t < |next.tasks| ensures TaskOk(next, next.tasks[t]) {
        assert TaskOk(db, db.tasks[t]);
      }
    }
  }

  lemma CreateItems(db: Db, sid: nat, ids: seq<nat>, mode: Mode, key: Option<Key>, actor: Option<nat>)
    requires RowsOk(db) && ItemsOk(db) && sid < |db.scopes|
    ensures var next := CreateTask(db, sid, ids, mode, key, actor).0;
            ItemsOk(next) && ItemsEvolve(db.items, next, db.nextToken)
  {
    hide RowsOk, InsertItems, FindKey;
    var r := CreateTask(db, sid, ids, mode, key, actor);
    if r.1.Created? {
      var t := |db.tasks|;
      var next := r.0.(items := db.items);
      WithNewTask(db, next);
      if mode == Execute {
        InsertItemsKeep(next, ids, t);
        AttachKeeps(next.(items := InsertItems(db.items, db.quals, ids, t)), ids, t);
      }
    }
  }

  lemma WithNewTask(db: Db, next: Db)
    requires RowsOk(db) && ItemsOk(db)
    requires next == db.(tasks := next.tasks, nextToken := next.nextToken)
    requires |db.tasks| <= |next.tasks| && next.tasks[..|db.tasks|] == db.tasks
    ensures RowsOk(next) && ItemsOk(next)
  {
    forall i | 0 <= i < |next.items| ensures ItemOk(next, next.items[i]) {
      assert ItemOk(db, db.items[i]);
    }
  }

  lemma CreateKeeps(db: Db, sid: nat, ids: seq<nat>, mode: Mode, key: Option<Key>, actor: Option<nat>)
    requires Good(db) && sid < |db.scopes| && MembersInScope(db, sid, ids) && (key.Some? ==> KeyUsed(key.value, db.nextToken))
    ensures var r := CreateTask(db, sid, ids, mode, key, actor);
            Good(r.0) && Evolves(db, r.0)
  {
    hide RowsOk, TasksOk, ItemsOk, SequencesOk, TasksEvolve, ItemsEvolve, InsertItems, FindKey;
    CreateTasks(db, sid, ids, mode, key, actor);
    CreateItems(db, sid, ids, mode, key, actor);
    Frame(db, CreateTask(db, sid, ids, mode, key, actor).0);
  }

  // ----- claiming -----

  ghost predicate NoneRunning(db: Db, sid: nat) {
    forall t | 0 <= t < |db.tasks| && db.tasks[t].scope == sid :: db.tasks[t].status != TaskRunning
  }

  lemma RecoverTasks(db: Db, sid: nat)
    requires TasksOk(db) && sid < |db.scopes|
    ensures var next := Recover(db, sid);
            TasksOk(next) && TasksEvolve(db.tasks, next.tasks, db.nextToken) && NoneRunning(next, sid)
  {
    hide RecoverItem;
    var next := Recover(db, sid);
    forall t | 0 <= t < |db.tasks| ensures TaskOk(next, next.tasks[t]) {
      assert TaskOk(db, db.tasks[t]);
    }
  }

  lemma RecoverItems(db: Db, sid: nat)
    requires TasksOk(db) && ItemsOk(db) && sid < |db.scopes|
    ensures ItemsOk(Recover(db, sid)) && ItemsEvolve(db.items, Recover(db, sid), db.nextToken)
  {
    hide TaskOk;
    var next := Recover(db, sid);
    forall i | 0 <= i < |db.items|
      ensures ItemOk(next, next.items[i]) && (LeasedUnder(next, next.items[i], db.nextToken) ==> next.items[i] == db.items[i])
      ensures Active(next.items[i]) ==> Active(db.items[i])
      ensures next.items[i].qualification == db.items[i].qualification
    {
      assert ItemOk(db, db.items[i]);
    }
  }

  lemma RecoverKeeps(db: Db, sid: nat)
    requires Good(db) && sid < |db.scopes|
    ensures Good(Recover(db, sid)) && Evolves(db, Recover(db, sid)) && NoneRunning(Recover(db, sid), sid)
  {
    hide RowsOk, TasksOk, ItemsOk, SequencesOk, TasksEvolve, ItemsEvolve, RecoverTask, RecoverItem, NoneRunning;
    RecoverTasks(db, sid);
    RecoverItems(db, sid);
    Frame(db, Recover(db, sid));
  }

  lemma WakeKeeps(db: Db, sid: nat)
    requires Good(db) && sid < |db.scopes|
    ensures Good(Wake(db, sid)) && Evolves(db, Wake(db, sid))
  {
    hide Revision;
    var next := Wake(db, sid);
    forall i, j | 0 <= i < j < |next.items| && Active(next.items[i])
      ensures next.items[j].qualification != next.items[i].qualification
    {
      if Wakes(db, sid, i) {
        assert NewestItem(db.items, i);
      }
    }
  }

  lemma GrantTasks(db: Db, sid: nat, t: nat)
    requires TasksOk(db) && sid < |db.scopes| && t < |db.tasks| && NoneRunning(db, sid)
    requires Claims(db.tasks[t], sid, db.scopes[sid].paused)
    ensures var next := Grant(db, sid, t).0;
            TasksOk(next) && TasksEvolve(db.tasks, next.tasks, db.nextToken)
  {
    hide LeaseItem, Update;
    var next := Grant(db, sid, t).0;
    forall u | 0 <= u < |db.tasks| ensures TaskOk(next, next.tasks[u]) {
      assert TaskOk(db, db.tasks[u]);
    }
  }

  lemma GrantItems(db: Db, sid: nat, t: nat)
    requires TasksOk(db) && ItemsOk(db) && sid < |db.scopes| && t < |db.tasks|
    requires Claims(db.tasks[t], sid, db.scopes[sid].paused)
    ensures var next := Grant(db, sid, t).0;
            ItemsOk(next) && ItemsEvolve(db.items, next, db.nextToken)
  {
    hide TaskOk;
    var next := Grant(db, sid, t).0;
    forall i | 0 <= i < |db.items|
      ensures ItemOk(next, next.items[i]) && (LeasedUnder(next, next.items[i], db.nextToken) ==> next.items[i] == db.items[i])
      ensures Active(next.items[i]) ==> Active(db.items[i])
      ensures next.items[i].qualification == db.items[i].qualification
    {
      assert ItemOk(db, db.items[i]);
    }
  }

  lemma GrantKeeps(db: Db, sid: nat, t: nat)
    requires Good(db) && sid < |db.scopes| && t < |db.tasks| && NoneRunning(db, sid)
    requires Claims(db.tasks[t], sid, db.scopes[sid].paused)
    ensures Good(Grant(db, sid, t).0) && Evolves(db, Grant(db, sid, t).0)
  {
    hide RowsOk, TasksOk, ItemsOk, SequencesOk, TasksEvolve, ItemsEvolve, LeaseItem, Update, NoneRunning;
    GrantTasks(db, sid, t);
    GrantItems(db, sid, t);
    Frame(db, Grant(db, sid, t).0);
  }

  /** The ticket describes the task and carries its new fence. */
  lemma GrantTicket(db: Db, sid: nat, t: nat)
    requires TasksOk(db) && sid < |db.scopes| && t < |db.tasks| && Claims(db.tasks[t], sid, db.scopes[sid].paused)
    ensures var (next, tk) := Grant(db, sid, t);
            TicketOk(next, tk) && Fenced(next, tk) && tk.task == t && LeaseHeld(next, tk)
  {
    hide LeaseItem, Update;
    assert TaskOk(db, db.tasks[t]);
  }

  lemma BatchInScope(db: Db, sid: nat)
    ensures MembersInScope(db, sid, NextBatch(db, sid))
    ensures forall m | m in NextBatch(db, sid) :: InLine(db, sid, m)
  {
    hide SortBy, InLine;
    var line := Line(db, sid, |db.members|);
    var sorted := SortBy(ArrivedBefore(db.members), line);
    SameElements(sorted, line);
    forall m | m in NextBatch(db, sid) ensures m < |db.members| && db.members[m].scope == sid && InLine(db, sid, m) {
      assert m in sorted;
      InLineMeans(db, sid, m);
    }
  }

  lemma InLineMeans(db: Db, sid: nat, m: nat)
    ensures InLine(db, sid, m) ==> QueuedMember(db, sid, m)
  {}

  lemma ClaimKeeps(db: Db, sid: nat)
    requires Good(db) && sid < |db.scopes|
    ensures var (next, tk) := Claim(db, sid);
            && Good(next) && Evolves(db, next)
            && (tk.Some? ==> TicketOk(next, tk.value) && Fenced(next, tk.value) && LeaseHeld(next, tk.value))
  {
    hide Recover, Wake, NextBatch, CreateTask, Grant, Evolves, TicketOk, NoneRunning, FirstPending, Fenced, LeaseHeld;
    hide RowsOk, TasksOk, ItemsOk, SequencesOk, Claims;
    var r := Recover(db, sid);
    RecoverKeeps(db, sid);
    RecoverShape(db, sid);
    var paused := r.scopes[sid].paused;
    var first := FirstPending(r.tasks, sid, paused);
    if first.Some? {
      GrantKeeps(r, sid, first.value);
      GrantTicket(r, sid, first.value);
      EvolvesTransitive(db, r, Grant(r, sid, first.value).0);
    } else if !paused {
      var w := Wake(r, sid);
      WakeKeeps(r, sid);
      WakeShape(r, sid);
      EvolvesTransitive(db, r, w);
      BatchInScope(w, sid);
      var ids := NextBatch(w, sid);
      if ids != [] {
        CreateKeeps(w, sid, ids, Execute, None, None);
        CreateShape(w, sid, ids);
        var c := CreateTask(w, sid, ids, Execute, None, None);
        EvolvesTransitive(db, w, c.0);
        if c.1.Created? {
          GrantKeeps(c.0, sid, c.1.task);
          GrantTicket(c.0, sid, c.1.task);
          EvolvesTransitive(db, c.0, Grant(c.0, sid, c.1.task).0);
        }
      }
    }
  }

  lemma RecoverShape(db: Db, sid: nat)
    ensures Recover(db, sid) == db.(tasks := Recover(db, sid).tasks, items := Recover(db, sid).items)
    ensures |Recover(db, sid).tasks| == |db.tasks| && |Recover(db, sid).items| == |db.items|
  {}

  lemma WakeShape(db: Db, sid: nat)
    requires sid < |db.scopes|
    ensures Wake(db, sid) == db.(items := Wake(db, sid).items)
    ensures NoneRunning(db, sid) ==> NoneRunning(Wake(db, sid), sid)
  {}

  /** A task made from a batch is pending, of the scope, and the first one of its key. */
  lemma CreateShape(db: Db, sid: nat, ids: seq<nat>)
    requires sid < |db.scopes| && NoneRunning(db, sid)
    ensures var r := CreateTask(db, sid, ids, Execute, None, None);
            && NoneRunning(r.0, sid)
            && (r.1.Created? ==> r.1.task < |r.0.tasks|)
            && (r.1.Created? ==> Claims(r.0.tasks[r.1.task], sid, r.0.scopes[sid].paused))
            && (r.1.Created? ==> r.0.tasks[r.1.task].members == ids)
  {}

  // ----- processing -----

  lemma CleanKeeps(db: Db, ids: seq<nat>)
    requires Good(db)
    ensures Good(Clean(db, ids)) && Evolves(db, Clean(db, ids))
    ensures forall i | 0 <= i < |db.items| && Clean(db, ids).items[i].status == ItemLeased ::
              db.items[i].member in ids ==> Valid(db, db.items[i].member)
  {
    hide Valid, CleanChanges, Displaced;
    var next := Clean(db, ids);
    assert RowsOk(next) by {
      forall m | 0 <= m < |next.members|
        ensures next.members[m].candidate == db.members[m].candidate
        ensures ActiveMembership(next.members[m]) ==> ActiveMembership(db.members[m])
      {
        RestatedWasActive(db, ids, m);
      }
    }
    assert TasksOk(next);
    assert ItemsOk(next);
  }

  lemma RestatedWasActive(db: Db, ids: seq<nat>, m: nat)
    requires m < |db.members|
    ensures Restated(db, ids, m) ==> ActiveMembership(db.members[m])
  {}

  ghost predicate NothingLeased(items: seq<Item>, task: nat) {
    forall i | 0 <= i < |items| && items[i].status == ItemLeased :: items[i].task != Some(task)
  }

  /** A running task may leave the running state once nothing is leased to it; the lease goes too. */
  lemma RetireKeeps(db: Db, tk: Ticket, task: Task)
    requires Good(db) && TicketOk(db, tk) && Fenced(db, tk) && NothingLeased(db.items, tk.task)
    requires task == db.tasks[tk.task].(status := task.status, generation := task.generation, workerToken := task.workerToken)
    requires task.status != TaskRunning && db.tasks[tk.task].generation <= task.generation
    requires task.workerToken == 0 || task.workerToken == db.tasks[tk.task].workerToken
    requires task.generation <= if Live(task) then MAX_GENERATION else MAX_GENERATION + 1
    requires tk.scope < |db.scopes|
    ensures var next := Release(db.(tasks := db.tasks[tk.task := task]), tk.scope, tk.token);
            Good(next) && Evolves(db, next)
  {
    hide RowsOk, SequencesOk;
    RetireTasks(db, tk, task);
    RetireItems(db, tk, task);
    Frame(db, Release(db.(tasks := db.tasks[tk.task := task]), tk.scope, tk.token));
  }

  lemma RetireTasks(db: Db, tk: Ticket, task: Task)
    requires TasksOk(db) && TicketOk(db, tk) && Fenced(db, tk)
    requires task == db.tasks[tk.task].(status := task.status, generation := task.generation, workerToken := task.workerToken)
    requires task.status != TaskRunning && db.tasks[tk.task].generation <= task.generation
    requires task.workerToken == 0 || task.workerToken == db.tasks[tk.task].workerToken
    requires task.generation <= if Live(task) then MAX_GENERATION else MAX_GENERATION + 1
    requires tk.scope < |db.scopes|
    ensures var next := Release(db.(tasks := db.tasks[tk.task := task]), tk.scope, tk.token);
            TasksOk(next) && TasksEvolve(db.tasks, next.tasks, db.nextToken)
  {
    var next := Release(db.(tasks := db.tasks[tk.task := task]), tk.scope, tk.token);
    assert TaskOk(db, db.tasks[tk.task]);
    forall u | 0 <= u < |db.tasks| ensures TaskOk(next, next.tasks[u]) {
      assert TaskOk(db, db.tasks[u]);
    }
  }

  lemma RetireItems(db: Db, tk: Ticket, task: Task)
    requires ItemsOk(db) && tk.task < |db.tasks| && tk.scope < |db.scopes| && NothingLeased(db.items, tk.task)
    requires task.status != TaskRunning && task.mode == db.tasks[tk.task].mode && task.members == db.tasks[tk.task].members
    ensures var next := Release(db.(tasks := db.tasks[tk.task := task]), tk.scope, tk.token);
            ItemsOk(next) && ItemsEvolve(db.items, next, db.nextToken)
  {
    var next := Release(db.(tasks := db.tasks[tk.task := task]), tk.scope, tk.token);
    forall i | 0 <= i < |db.items| ensures ItemOk(next, next.items[i]) {
      assert ItemOk(db, db.items[i]);
    }
  }

  lemma CompleteKeeps(db: Db, tk: Ticket)
    requires Good(db) && TicketOk(db, tk) && Fenced(db, tk) && NothingLeased(db.items, tk.task)
    ensures tk.scope < |db.scopes| && Good(Complete(db, tk)) && Evolves(db, Complete(db, tk))
  {
    hide RowsOk, ItemsOk, SequencesOk, Evolves, Release, NothingLeased;
    assert TaskOk(db, db.tasks[tk.task]);
    RetireKeeps(db, tk, db.tasks[tk.task].(status := TaskCompleted));
  }

  lemma ProcessKeeps(db: Db, tk: Ticket, pin: nat, authorized: bool)
    requires Good(db) && TicketOk(db, tk)
    ensures var (next, result) := Process(db, tk, pin, authorized);
            && Good(next) && Evolves(db, next)
            && (result.Computing? ==> RequestOk(next, tk, result.request))
  {
    hide Clean, Complete, Valid, Build, Canonical, WellKeyed, Revision, Evolves, TicketOk, Buildable, CleanBlocked, InSnapshot;
    hide RowsOk, TasksOk, ItemsOk, SequencesOk, NothingLeased;
    EvolvesReflexive(db);
    if LeaseHeld(db, tk) && authorized && Buildable(db, tk) && !(tk.mode == Execute && CleanBlocked(db, tk.members)) {
      var after := if tk.mode == Execute then Clean(db, tk.members) else db;
      if tk.mode == Execute {
        CleanKeeps(db, tk.members);
        CleanShape(db, tk.members);
      }
      var s := Build(db, tk, db.now, Revision(after, tk.scope));
      LeasedAreCovered(db, after, tk);
      ProcessCovers(db, after, tk, db.now, Revision(after, tk.scope));
      SnapshotWellKeyed(db, tk, db.now, Revision(after, tk.scope));
      TicketSurvives(db, after, tk);
      if s.members == [] {
        NobodyInEmpty(s);
        LeasedNobody(after, tk, s);
        CompleteKeeps(after, tk);
        EvolvesTransitive(db, after, Complete(after, tk));
      }
    }
  }

  lemma LeasedNobody(db: Db, tk: Ticket, s: Snapshot)
    requires LeasedCovered(db, tk, s) && forall m: nat :: !InSnapshot(m, s)
    ensures NothingLeased(db.items, tk.task)
  {
    hide InSnapshot;
  }

  lemma ProcessCovers(db: Db, after: Db, tk: Ticket, at: int, revision: nat)
    requires Buildable(db, tk) && at >= 0
    requires forall i | 0 <= i < |after.items| && after.items[i].status == ItemLeased && after.items[i].task == Some(tk.task) ::
               after.items[i].member < |db.members| && after.items[i].member in tk.members && Valid(db, after.items[i].member)
    ensures LeasedCovered(after, tk, Build(db, tk, at, revision)) && Build(db, tk, at, revision).at == at
  {
    hide Valid, InSnapshot;
    SnapshotIsValidMembers(db, tk, at, revision);
  }

  lemma NobodyInEmpty(s: Snapshot)
    requires s.members == []
    ensures forall m: nat :: !InSnapshot(m, s)
  {}

  lemma CleanShape(db: Db, ids: seq<nat>)
    ensures var c := Clean(db, ids);
            c == db.(members := c.members, items := c.items, changes := c.changes) && |c.items| == |db.items|
            && forall i | 0 <= i < |db.items| :: c.items[i] == db.items[i] || c.items[i] == db.items[i].(status := ItemCancelled)
  {}

  lemma TicketSurvives(a: Db, b: Db, tk: Ticket)
    requires a.tasks == b.tasks && a.nextToken == b.nextToken && TicketOk(a, tk)
    ensures TicketOk(b, tk)
  {}

  /** After cleaning, what is still leased to the task belongs to valid members of it. */
  lemma LeasedAreCovered(db: Db, after: Db, tk: Ticket)
    requires Good(db) && TicketOk(db, tk) && Fenced(db, tk)
    requires after == if tk.mode == Execute then Clean(db, tk.members) else db
    ensures forall i | 0 <= i < |after.items| && after.items[i].status == ItemLeased && after.items[i].task == Some(tk.task) ::
              after.items[i].member < |db.members| && after.items[i].member in tk.members && Valid(db, after.items[i].member)
  {
    hide Valid, Clean;
    if tk.mode == Execute {
      CleanKeeps(db, tk.members);
      CleanShape(db, tk.members);
    }
    forall i | 0 <= i < |after.items| && after.items[i].status == ItemLeased && after.items[i].task == Some(tk.task)
      ensures after.items[i].member < |db.members| && after.items[i].member in tk.members && Valid(db, after.items[i].member)
    {
      assert db.items[i] == after.items[i];
      assert ItemOk(db, db.items[i]);
    }
  }
}
