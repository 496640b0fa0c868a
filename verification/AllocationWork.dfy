/** The work-item queue: who may hold an item, and that claimable work is always taken up. */
module AllocationWork {
  import opened Orders
  import opened AllocationTypes
  import opened AllocationPolicy
  import opened AllocationCanonical
  import opened AllocationStore
  import opened AllocationProtocol
  import opened AllocationCommit
  import opened AllocationInvariants
  import opened AllocationSafety

  // ----- items in reachable states -----

  /** A leased item is being worked on: its task runs, executes, and lists the item's member. */
  lemma LeasedMeansRunning(s: Sys, steps: seq<Step>, db: Db, i: nat)
    requires Inv(s) && Runs(s, steps) && db == After(s, steps).db && i < |db.items| && db.items[i].status == ItemLeased
    ensures var task := db.items[i].task;
            && task.Some? && task.value < |db.tasks| && db.tasks[task.value].status == TaskRunning
            && db.tasks[task.value].mode == Execute && db.items[i].member in db.tasks[task.value].members
  {
    hide Runs, After, RowsOk, TasksOk, SequencesOk, WorkerOk, ActiveIsNewest;
    RunKeepsInv(s, steps);
    assert ItemOk(db, db.items[i]);
  }

  lemma FinishedTaskHoldsNothing(s: Sys, steps: seq<Step>, db: Db, t: nat)
    requires Inv(s) && Runs(s, steps) && db == After(s, steps).db && t < |db.tasks| && db.tasks[t].status != TaskRunning
    ensures NothingLeased(db.items, t)
  {
    hide Runs, After, RowsOk, TasksOk, SequencesOk, WorkerOk, ActiveIsNewest;
    RunKeepsInv(s, steps);
    forall i | 0 <= i < |db.items| && db.items[i].status == ItemLeased ensures db.items[i].task != Some(t) {
      assert ItemOk(db, db.items[i]);
    }
  }

  /** Per qualification at most one item is pending or leased, and it is the newest one. */
  lemma ActiveItemIsUniqueAndNewest(s: Sys, steps: seq<Step>, db: Db, i: nat, j: nat)
    requires Inv(s) && Runs(s, steps) && db == After(s, steps).db
    requires i < |db.items| && j < |db.items| && db.items[i].qualification == db.items[j].qualification && Active(db.items[i])
    ensures j <= i && (Active(db.items[j]) ==> i == j)
  {
    hide Runs, After, RowsOk, TasksOk, SequencesOk, WorkerOk, ItemOk;
    RunKeepsInv(s, steps);
  }

  // ----- claimable work is taken up -----

  lemma RecoverLeavesQueue(db: Db, sid: nat, i: nat)
    requires sid < |db.scopes| && i < |db.items| && ClaimableItem(db, sid, i)
    ensures i < |Recover(db, sid).items| && ClaimableItem(Recover(db, sid), sid, i)
  {
    hide LastChange;
    var r := Recover(db, sid);
    assert forall j | 0 <= j < |db.items| :: r.items[j].qualification == db.items[j].qualification;
    assert r.items[i] == db.items[i];
    assert Revision(r, sid) == Revision(db, sid);
  }

  /** After waking, the member of a claimable item stands in line. */
  lemma ClaimableGetsInLine(db: Db, sid: nat, i: nat)
    requires ItemsOk(db) && sid < |db.scopes| && i < |db.items| && ClaimableItem(db, sid, i)
    ensures InLine(Wake(db, sid), sid, db.items[i].member)
  {
    hide Revision, ItemOk, NoNewerQualification;
    var w := Wake(db, sid);
    if db.items[i].status == ItemWaiting {
      assert !HasActive(db.items, db.items[i].qualification);
      assert Wakes(db, sid, i);
    }
    assert w.items[i].status == ItemPending && w.items[i].member == db.items[i].member;
    assert QueuedMember(w, sid, db.items[i].member);
  }

  lemma SomeoneInLine(db: Db, sid: nat, m: nat)
    requires InLine(db, sid, m)
    ensures NextBatch(db, sid) != []
  {
    hide SortBy, ArrivedBefore;
    InLineMeans(db, sid, m);
    assert m in Line(db, sid, |db.members|);
  }

  lemma {:induction false} FreshKey(tasks: seq<Task>, token: nat)
    requires forall t | 0 <= t < |tasks| :: KeyUsed(tasks[t].key, token)
    ensures FindKey(tasks, TokenKey(token)) == None
  {
    if tasks != [] {
      assert KeyUsed(tasks[|tasks| - 1].key, token);
      FreshKey(tasks[..|tasks| - 1], token);
    }
  }

  lemma BatchTaskCreated(db: Db, sid: nat, ids: seq<nat>)
    requires TasksOk(db) && sid < |db.scopes| && !db.scopes[sid].paused && 1 <= |ids| <= TASK_LIMIT
    ensures CreateTask(db, sid, ids, Execute, None, None).1 == Created(|db.tasks|)
  {
    hide InsertItems, Update, AttachItem;
    forall t | 0 <= t < |db.tasks| ensures KeyUsed(db.tasks[t].key, db.nextToken) {
      assert TaskOk(db, db.tasks[t]);
    }
    FreshKey(db.tasks, db.nextToken);
  }

  /** The three ways a claim can end. */
  datatype ClaimCase = TakesPending(task: nat) | TakesBatch(batch: seq<nat>) | TakesNothing

  ghost predicate ClaimEnds(db: Db, sid: nat, how: ClaimCase)
    requires sid < |db.scopes|
  {
    var r := Recover(db, sid);
    match how
    case TakesPending(t) =>
      t < |r.tasks| && Claims(r.tasks[t], sid, r.scopes[sid].paused) && Claim(db, sid) == (Grant(r, sid, t).0, Some(Grant(r, sid, t).1))
    case TakesBatch(ids) =>
      var w := Wake(r, sid);
      var c := CreateTask(w, sid, ids, Execute, None, None);
      && !w.scopes[sid].paused && ids == NextBatch(w, sid) && 1 <= |ids| <= TASK_LIMIT && c.1 == Created(|w.tasks|)
      && Claim(db, sid) == (Grant(c.0, sid, |w.tasks|).0, Some(Grant(c.0, sid, |w.tasks|).1))
      && NothingClaimable(r.tasks, sid, false)
    case TakesNothing =>
      && NothingClaimable(r.tasks, sid, r.scopes[sid].paused)
      && (r.scopes[sid].paused || NextBatch(Wake(r, sid), sid) == [])
      && Claim(db, sid) == (if r.scopes[sid].paused then r else Wake(r, sid), None)
  }

  ghost predicate NothingClaimable(tasks: seq<Task>, sid: nat, paused: bool) {
    forall t | 0 <= t < |tasks| :: !Claims(tasks[t], sid, paused)
  }

  lemma ClaimEndsSomehow(db: Db, sid: nat) returns (how: ClaimCase)
    requires Good(db) && sid < |db.scopes|
    ensures ClaimEnds(db, sid, how)
  {
    hide Recover, Wake, NextBatch, CreateTask, Grant, FirstPending, RowsOk, TasksOk, ItemsOk, SequencesOk, Claims, Evolves, NoneRunning;
    var r := Recover(db, sid);
    RecoverKeeps(db, sid);
    RecoverShape(db, sid);
    var paused := r.scopes[sid].paused;
    var first := FirstPending(r.tasks, sid, paused);
    if first.Some? {
      how := TakesPending(first.value);
    } else if paused {
      how := TakesNothing;
    } else {
      var w := Wake(r, sid);
      WakeKeeps(r, sid);
      WakeShape(r, sid);
      var ids := NextBatch(w, sid);
      if ids == [] {
        how := TakesNothing;
      } else {
        BatchTaskCreated(w, sid, ids);
        how := TakesBatch(ids);
      }
    }
  }

  /** A scope selected because of a claimable work item always yields a task, with 1 to 100 members. */
  lemma ClaimYieldsTask(s: Sys, sid: nat, i: nat)
    requires Inv(s) && sid < |s.db.scopes| && !s.db.scopes[sid].paused
    requires i < |s.db.items| && ClaimableItem(s.db, sid, i)
    ensures var (next, tk) := Claim(s.db, sid);
            && tk.Some? && tk.value.scope == sid && 1 <= |tk.value.members| <= TASK_LIMIT
            && LeaseHeld(next, tk.value)
  {
    hide Recover, Wake, NextBatch, CreateTask, RowsOk, TasksOk, ItemsOk, SequencesOk, Evolves, NoneRunning, ClaimableItem, InLine;
    hide LeaseHeld, Claim, FirstPending, WorkerOk, Update, LeaseItem;
    var r := Recover(s.db, sid);
    RecoverKeeps(s.db, sid);
    RecoverShape(s.db, sid);
    RecoverLeavesQueue(s.db, sid, i);
    ClaimableGetsInLine(r, sid, i);
    SomeoneInLine(Wake(r, sid), sid, r.items[i].member);
    ClaimKeeps(s.db, sid);
    var how := ClaimEndsSomehow(s.db, sid);
    match how
    case TakesPending(t) => TaskSize(r, t);
    case TakesBatch(ids) =>
      WakeShape(r, sid);
      BatchSize(Wake(r, sid), sid, ids);
    case TakesNothing => assert false;
  }

  lemma TaskSize(db: Db, t: nat)
    requires TasksOk(db) && t < |db.tasks|
    ensures 1 <= |db.tasks[t].members| <= TASK_LIMIT
  {
    assert TaskOk(db, db.tasks[t]);
  }

  lemma BatchSize(db: Db, sid: nat, ids: seq<nat>)
    requires sid < |db.scopes| && CreateTask(db, sid, ids, Execute, None, None).1 == Created(|db.tasks|)
    ensures var c := CreateTask(db, sid, ids, Execute, None, None).0;
            && |c.tasks| == |db.tasks| + 1 && c.tasks[..|db.tasks|] == db.tasks && 1 <= |ids| <= TASK_LIMIT
            && c.tasks[|db.tasks|].members == ids && c.tasks[|db.tasks|].mode == Execute && c.tasks[|db.tasks|].scope == sid
  {
    hide InsertItems, FindKey, Update, AttachItem;
  }

  /** Submitting a request again under the same key creates nothing and names the first task. */
  lemma SubmittingTwice(db: Db, sid: nat, ids: seq<nat>, mode: Mode, key: Key, actor: Option<nat>)
    requires sid < |db.scopes| && CreateTask(db, sid, ids, mode, Some(key), actor).1.Created?
    ensures var (next, first) := CreateTask(db, sid, ids, mode, Some(key), actor);
            CreateTask(next, sid, ids, mode, Some(key), actor) == (next, Existing(first.task))
  {
    hide InsertItems, Update, AttachItem;
    var next := CreateTask(db, sid, ids, mode, Some(key), actor).0;
    assert next.tasks[|next.tasks| - 1].key == key;
  }

  /** A newly screened qualification takes over: the member's unsettled work is all for it, and there
      is an active item. */
  lemma ScreeningReplacesWork(db: Db, q: Qualification, i: nat)
    requires i < |SaveQualification(db, q).items|
    ensures var next := SaveQualification(db, q);
            var id := if FindQualification(db.quals, q.member, q.revision).Some?
                      then FindQualification(db.quals, q.member, q.revision).value else |db.quals|;
            && (next.items[i].member == q.member && Unsettled(next.items[i]) ==> next.items[i].qualification == id)
            && HasActive(next.items, id)
  {
    hide FindQualification;
    var id := if FindQualification(db.quals, q.member, q.revision).Some?
              then FindQualification(db.quals, q.member, q.revision).value else |db.quals|;
    var items := Update(db.items, SupersedeItem(q.member, id));
    if !HasActive(items, id) {
      var next := items + [Item(q.member, id, None, ItemPending, 0)];
      assert next[|items|].qualification == id && Active(next[|items|]);
    }
  }
}
