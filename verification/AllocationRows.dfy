/** What the transactions of the engine read and write, said on the stored rows alone. */
module AllocationRows {
  import opened Orders
  import opened AllocationTypes
  import opened AllocationPolicy
  import opened AllocationCanonical
  import opened AllocationStore
  import opened AllocationProtocol
  import opened AllocationInvariants
  import opened AllocationSafety
  import opened AllocationFencing

  // ----- supply -----

  /** A record of the demand that counts: its attempt is still open or has passed, or it was handed to
      the department at some time, whatever became of it. */
  predicate OnRecord(a: Attempt, sid: nat, demand: nat) {
    && a.target.Some? && a.target.value.scope == sid && a.target.value.demand == demand
    && (a.status in {PendingReview, PendingDispatch, Dispatched, AttemptPassed} || a.target.value.dispatched)
  }

  /** The record was made in the seven days before the instant. */
  predicate Recent(a: Attempt, at: nat) {
    a.target.Some? && at - 7 * 86400 * 1000000 <= a.target.value.allocatedAt < at
  }

  /** A candidate is supply exactly if a counting record of his was allocated in the seven days before. */
  lemma SuppliedOnRows(db: Db, sid: nat, demand: nat, at: nat, x: nat)
    ensures x in Supplied(db, sid, demand, at) <==>
              exists a :: 0 <= a < |db.attempts| && db.attempts[a].candidate == x
                && OnRecord(db.attempts[a], sid, demand) && Recent(db.attempts[a], at)
  {
    forall a | 0 <= a < |db.attempts|
      ensures Supplies(db.attempts[a], sid, demand, at) <==> OnRecord(db.attempts[a], sid, demand) && Recent(db.attempts[a], at)
    {}
  }

  /** The last sequence is the largest one of all counting records, in or out of the window, or 0. */
  lemma {:induction false} LastSequenceOnRows(attempts: seq<Attempt>, sid: nat, demand: nat)
    ensures forall a | 0 <= a < |attempts| && OnRecord(attempts[a], sid, demand) ::
              attempts[a].target.value.sequence <= LastSequence(attempts, sid, demand)
    ensures LastSequence(attempts, sid, demand) == 0
            || exists a :: 0 <= a < |attempts| && OnRecord(attempts[a], sid, demand)
                 && attempts[a].target.value.sequence == LastSequence(attempts, sid, demand)
  {
    if attempts != [] {
      var n := |attempts| - 1;
      LastSequenceOnRows(attempts[..n], sid, demand);
      if LastSequence(attempts[..n], sid, demand) == LastSequence(attempts, sid, demand) != 0 {
        var a :| 0 <= a < n && OnRecord(attempts[..n][a], sid, demand)
          && attempts[..n][a].target.value.sequence == LastSequence(attempts[..n], sid, demand);
        assert attempts[a] == attempts[..n][a];
      }
      forall a | 0 <= a < |attempts| && OnRecord(attempts[a], sid, demand)
        ensures attempts[a].target.value.sequence <= LastSequence(attempts, sid, demand)
      {
        if a < n {
          assert attempts[..n][a] == attempts[a];
        }
      }
    }
  }

  /** Once handed to the department, a record counts whatever the department decides: nothing a
      snapshot says about demands or counted pairs depends on the attempt's status. */
  lemma DispatchedStaysCounted(db: Db, i: nat, status: AttemptStatus, sid: nat, at: nat, row: DemandRow)
    requires i < |db.attempts| && db.attempts[i].target.Some? && db.attempts[i].target.value.dispatched
    ensures var next := db.(attempts := db.attempts[i := db.attempts[i].(status := status)]);
            && SnapshotDemand(next, sid, at)(row) == SnapshotDemand(db, sid, at)(row)
            && forall x: nat, rows: seq<DemandRow> :: CountedFor(next, sid, x, at, rows) == CountedFor(db, sid, x, at, rows)
  {
    var next := db.(attempts := db.attempts[i := db.attempts[i].(status := status)]);
    forall d: nat ensures Supplied(next, sid, d, at) == Supplied(db, sid, d, at) {
      forall x: nat ensures x in Supplied(next, sid, d, at) <==> x in Supplied(db, sid, d, at) {
        SuppliedOnRows(db, sid, d, at, x);
        SuppliedOnRows(next, sid, d, at, x);
        RecordKept(db, next, i, sid, d);
      }
    }
    LastSequenceAlike(db.attempts, next.attempts, sid, row.demandId);
    forall x: nat, rows: seq<DemandRow> ensures CountedFor(next, sid, x, at, rows) == CountedFor(db, sid, x, at, rows) {
      CountedAs(db, next, sid, x, at, rows);
    }
  }

  lemma RecordKept(db: Db, next: Db, i: nat, sid: nat, demand: nat)
    requires i < |db.attempts| == |next.attempts| && db.attempts[i].target.Some? && db.attempts[i].target.value.dispatched
    requires forall a | 0 <= a < |db.attempts| :: next.attempts[a] == if a == i then db.attempts[i].(status := next.attempts[i].status) else db.attempts[a]
    ensures forall a | 0 <= a < |db.attempts| ::
              (OnRecord(next.attempts[a], sid, demand) <==> OnRecord(db.attempts[a], sid, demand))
              && next.attempts[a].candidate == db.attempts[a].candidate && next.attempts[a].target == db.attempts[a].target
  {}

  lemma {:induction false} LastSequenceAlike(a: seq<Attempt>, b: seq<Attempt>, sid: nat, demand: nat)
    requires |a| == |b|
    requires forall i | 0 <= i < |a| :: b[i].target == a[i].target
               && (b[i] == a[i] || (a[i].target.Some? && a[i].target.value.dispatched))
    ensures LastSequence(b, sid, demand) == LastSequence(a, sid, demand)
  {
    if a != [] {
      LastSequenceAlike(a[..|a| - 1], b[..|b| - 1], sid, demand);
    }
  }

  lemma {:induction false} CountedAs(db: Db, next: Db, sid: nat, x: nat, at: nat, rows: seq<DemandRow>)
    requires forall d: nat :: Supplied(next, sid, d, at) == Supplied(db, sid, d, at)
    ensures CountedFor(next, sid, x, at, rows) == CountedFor(db, sid, x, at, rows)
  {
    hide Supplied;
    if rows != [] {
      CountedAs(db, next, sid, x, at, rows[..|rows| - 1]);
    }
  }

  // ----- validity of a member -----

  /** A membership may be allocated exactly if it is pending on the candidate's current resume, was
      screened and still matches its facts, no attempt of the candidate is open or has passed, and the
      workflow has not ended. */
  lemma ValidOnRows(db: Db, m: nat)
    requires m < |db.members|
    ensures var row := db.members[m];
            Valid(db, m) <==>
              && (exists q :: 0 <= q < |db.quals| && db.quals[q].member == m)
              && row.status == PendingAllocation && row.factsCurrent
              && row.candidate < |db.workflows| && db.workflows[row.candidate].currentResume == Some(row.resume)
              && (forall a | 0 <= a < |db.attempts| && db.attempts[a].candidate == row.candidate ::
                    db.attempts[a].status in {AttemptRejected, AttemptCancelled})
              && db.workflows[row.candidate].status in {WorkflowOpen, InProgress}
  {
    hide Latest, Assigned;
    ScreenedOnRows(db, m);
    AssignedOnRows(db, db.members[m].candidate);
    if db.members[m].candidate < |db.workflows| {
      StatusesAre(db, m);
    }
  }

  lemma StatusesAre(db: Db, m: nat)
    requires m < |db.members| && db.members[m].candidate < |db.workflows|
    ensures var status := db.workflows[db.members[m].candidate].status;
            status in {WorkflowOpen, InProgress} <==> status !in {WorkflowPassed, Archived, WaitingNext, TalentPool}
  {
    match db.workflows[db.members[m].candidate].status {
      case WorkflowOpen =>
      case InProgress =>
      case _ =>
    }
  }

  lemma ScreenedOnRows(db: Db, m: nat)
    ensures Latest(db.quals, m).Some? <==> exists q :: 0 <= q < |db.quals| && db.quals[q].member == m
  {
    LatestIsQualification(db.quals, m);
    if Latest(db.quals, m).Some? {
      assert db.quals[Latest(db.quals, m).value].member == m;
    }
  }

  lemma AssignedOnRows(db: Db, x: nat)
    ensures !Assigned(db, x) <==>
              forall a | 0 <= a < |db.attempts| && db.attempts[a].candidate == x ::
                db.attempts[a].status in {AttemptRejected, AttemptCancelled}
  {
    forall a | 0 <= a < |db.attempts|
      ensures Effective(db.attempts[a]) <==> db.attempts[a].status !in {AttemptRejected, AttemptCancelled}
    {}
  }

  // ----- the lease -----

  /** The lease is the ticket's exactly under these conditions on the scope's and the task's rows. */
  predicate MayWrite(db: Db, tk: Ticket) {
    && tk.scope < |db.scopes| && tk.task < |db.tasks|
    && db.scopes[tk.scope].leaseUntil.Some? && db.now < db.scopes[tk.scope].leaseUntil.value
    && db.scopes[tk.scope].leaseToken == tk.token && (db.scopes[tk.scope].paused ==> tk.mode == Simulate)
    && db.tasks[tk.task].status == TaskRunning && db.tasks[tk.task].generation == tk.generation
    && db.tasks[tk.task].workerToken == tk.token
  }

  /** Without them every transaction of the worker is refused as a lost lease and changes nothing; with
      them none is. */
  lemma LeaseOnRows(db: Db, tk: Ticket, pin: nat, authorized: bool, q: Request, ds: seq<Decision>, failure: Failure)
    requires q.snapshot.at >= 0
    ensures !MayWrite(db, tk) ==>
              && Process(db, tk, pin, authorized) == (db, ProcessFailed(LeaseLost))
              && Commit(db, tk, q, ds, authorized) == (db, CommitFailed(LeaseLost))
              && FinishFailure(db, tk, failure) == db
    ensures MayWrite(db, tk) ==>
              && Process(db, tk, pin, authorized).1 != ProcessFailed(LeaseLost)
              && Commit(db, tk, q, ds, authorized).1 != CommitFailed(LeaseLost)
              && FinishFailure(db, tk, failure) != db
  {
    hide Clean, Build, Canonical, Revision, Complete, CleanBlocked, Buildable, Update, DropPlans, ApplyDecisions, Settle, MaxSequence;
    if MayWrite(db, tk) {
      assert FinishFailure(db, tk, failure).tasks[tk.task].status != TaskRunning;
    }
  }

  /** A claim leases the scope for ninety seconds under the ticket's token, and the task runs under it. */
  lemma ClaimLeases(db: Db, sid: nat)
    requires sid < |db.scopes| && Claim(db, sid).1.Some?
    ensures var (next, tk) := (Claim(db, sid).0, Claim(db, sid).1.value);
            && tk.scope == sid && next.now == db.now && |next.scopes| == |db.scopes|
            && next.scopes[sid].leaseToken == tk.token && next.scopes[sid].leaseUntil == Some(db.now + 90 * 1000000)
            && next.scopes[sid].paused == db.scopes[sid].paused
            && tk.task < |next.tasks| && next.tasks[tk.task].status == TaskRunning && next.tasks[tk.task].workerToken == tk.token
            && next.tasks[tk.task].generation == tk.generation && next.tasks[tk.task].mode == tk.mode
            && next.tasks[tk.task].members == tk.members && next.tasks[tk.task].scope == sid
            && db.nextToken <= tk.token < next.nextToken
  {
    hide Update, NextBatch, CreateTask, Wakes, RecoverTask, RecoverItem, LeaseItem;
    var r := Recover(db, sid);
    assert FirstPending(r.tasks, sid, r.scopes[sid].paused).None? ==> Wake(r, sid).tasks == r.tasks;
    var w := Wake(r, sid);
    NewTaskIs(w, sid, NextBatch(w, sid));
  }

  lemma NewTaskIs(db: Db, sid: nat, ids: seq<nat>)
    requires sid < |db.scopes|
    ensures var (next, r) := CreateTask(db, sid, ids, Execute, None, None);
            && next.now == db.now && next.scopes == db.scopes && db.nextToken <= next.nextToken
            && (r.Created? ==> next.tasks[r.task].scope == sid)
  {
    hide InsertItems, AttachItem, Update;
  }

  lemma {:induction false} LeaseNeverExtended(s: Sys, steps: seq<Step>, tk: Ticket, until: nat)
    requires Inv(s) && Runs(s, steps) && 0 < tk.token < s.db.nextToken && tk.scope < |s.db.scopes|
    requires s.db.scopes[tk.scope].leaseToken == tk.token ==> s.db.scopes[tk.scope].leaseUntil == Some(until)
    ensures var db := After(s, steps).db;
            tk.scope < |db.scopes| && (db.scopes[tk.scope].leaseToken == tk.token ==> db.scopes[tk.scope].leaseUntil == Some(until))
    decreases |steps|
  {
    hide Inv, Enabled, Next, Granted, TasksMove;
    if steps != [] {
      StepMoves(s, steps[0]);
      StepKeepsInv(s, steps[0]);
      assert LeaseMoves(s.db.scopes[tk.scope], Next(s, steps[0]).db.scopes[tk.scope], s.db.nextToken);
      LeaseNeverExtended(Next(s, steps[0]), steps[1..], tk, until);
    }
  }

  /** Ninety seconds after its claim a worker can write nothing any more, whatever happened in between. */
  lemma LateWorkerWritesNothing(
    s: Sys, w: nat, sid: nat, steps: seq<Step>, pin: nat, authorized: bool, q: Request, ds: seq<Decision>, failure: Failure)
    requires Enabled(s, TakeWork(w, sid)) && Inv(s) && Claim(s.db, sid).1.Some? && q.snapshot.at >= 0
    requires Runs(Next(s, TakeWork(w, sid)), steps)
    requires After(Next(s, TakeWork(w, sid)), steps).db.now >= s.db.now + 90 * 1000000
    ensures var db, tk := After(Next(s, TakeWork(w, sid)), steps).db, Claim(s.db, sid).1.value;
            && Process(db, tk, pin, authorized) == (db, ProcessFailed(LeaseLost))
            && Commit(db, tk, q, ds, authorized) == (db, CommitFailed(LeaseLost))
            && FinishFailure(db, tk, failure) == db
  {
    hide Inv, Runs, After, Process, Commit, FinishFailure, Claim;
    var tk := Claim(s.db, sid).1.value;
    StepKeepsInv(s, TakeWork(w, sid));
    ClaimLeases(s.db, sid);
    TokensPositive(s);
    LeaseNeverExtended(Next(s, TakeWork(w, sid)), steps, tk, s.db.now + 90 * 1000000);
    LeaseOnRows(After(Next(s, TakeWork(w, sid)), steps).db, tk, pin, authorized, q, ds, failure);
  }

  lemma TokensPositive(s: Sys)
    requires Inv(s)
    ensures s.db.nextToken > 0
  {
    hide RowsOk, ItemsOk, SequencesOk, WorkerOk;
  }

  /** No scope is claimed while somebody's lease on it runs. */
  lemma LeasedNotClaimable(db: Db, sid: nat)
    requires sid < |db.scopes| && db.scopes[sid].leaseUntil.Some? && db.scopes[sid].leaseUntil.value >= db.now
    ensures !Claimable(db, sid)
  {}

  /** Once the lease has run out, an unfinished task makes the scope claimable, and taking it over
      starts the task again under the next generation, or ends it after the third. */
  lemma ExpiredIsTakenOver(db: Db, sid: nat, t: nat)
    requires sid < |db.scopes| && (db.scopes[sid].leaseUntil.Some? ==> db.scopes[sid].leaseUntil.value < db.now)
    requires t < |db.tasks| && db.tasks[t].scope == sid && (db.scopes[sid].paused ==> db.tasks[t].mode == Simulate)
    ensures db.tasks[t].status in {TaskPending, TaskRunning} ==> Claimable(db, sid)
    ensures var task := Recover(db, sid).tasks[t];
            if db.tasks[t].status != TaskRunning then task == db.tasks[t]
            else task == db.tasks[t].(status := if db.tasks[t].generation < 3 then TaskPending else TaskFailed,
                                      generation := db.tasks[t].generation + 1, workerToken := 0)
  {}

  /** What was leased to a running task of the scope goes back to the queue, or fails with its task
      after the third generation; other items and tasks of other scopes stay. */
  lemma RecoveredItems(db: Db, sid: nat, i: nat)
    requires ItemsOk(db) && i < |db.items|
    ensures var item := Recover(db, sid).items[i];
            if db.items[i].status == ItemLeased && db.tasks[db.items[i].task.value].scope == sid
            then item == db.items[i].(status := if db.tasks[db.items[i].task.value].generation < 3 then ItemPending else ItemFailed)
            else item == db.items[i]
    ensures forall t | 0 <= t < |db.tasks| && db.tasks[t].scope != sid :: Recover(db, sid).tasks[t] == db.tasks[t]
  {
    assert ItemOk(db, db.items[i]);
  }

  /** A worker takes the oldest pending task, of a paused scope the oldest simulation. */
  lemma {:induction false} OldestFirst(tasks: seq<Task>, sid: nat, paused: bool, t: nat)
    requires t < |tasks| && tasks[t].scope == sid && tasks[t].status == TaskPending && (paused ==> tasks[t].mode == Simulate)
    ensures FirstPending(tasks, sid, paused).Some? && FirstPending(tasks, sid, paused).value <= t
    ensures var first := tasks[FirstPending(tasks, sid, paused).value];
            first.scope == sid && first.status == TaskPending && (paused ==> first.mode == Simulate)
  {
    if t < |tasks| - 1 {
      OldestFirst(tasks[..|tasks| - 1], sid, paused, t);
    }
  }

  // ----- the queue -----

  /** First come, first served; members of one instant by key. */
  predicate ComesBefore(db: Db, a: nat, b: nat) {
    && a < |db.members| && b < |db.members|
    && (db.members[a].createdAt < db.members[b].createdAt || (db.members[a].createdAt == db.members[b].createdAt && a < b))
  }

  /** A pending member of the scope with pending work. */
  predicate Waits(db: Db, sid: nat, m: nat) {
    && m < |db.members| && db.members[m].scope == sid && db.members[m].status == PendingAllocation
    && exists i :: 0 <= i < |db.items| && db.items[i].member == m && db.items[i].status == ItemPending
  }

  ghost function Waiters(db: Db, sid: nat): set<nat> { set m: nat | m < |db.members| && Waits(db, sid, m) }

  lemma ArrivalIsOrder(members: seq<MemberRow>)
    ensures TotalPreorder(ArrivedBefore(members))
  {}

  lemma {:induction false} DistinctSize(xs: seq<nat>, all: set<nat>)
    requires (forall i, j | 0 <= i < j < |xs| :: xs[i] < xs[j]) && forall x :: x in xs <==> x in all
    ensures |xs| == |all|
  {
    if xs == [] {
      assert all == {};
    } else {
      var n := |xs| - 1;
      assert xs[n] in xs;
      forall x ensures x in xs[..n] <==> x in all - {xs[n]} {
        if x in all && x != xs[n] {
          var i :| 0 <= i < |xs| && xs[i] == x;
          assert xs[..n][i] == x;
        }
        if x in xs[..n] {
          var i :| 0 <= i < n && xs[..n][i] == x;
          assert xs[i] in xs;
        }
      }
      DistinctSize(xs[..n], all - {xs[n]});
    }
  }

  lemma SortedLine(db: Db, sid: nat) returns (line: seq<nat>)
    ensures line == SortBy(ArrivedBefore(db.members), Line(db, sid, |db.members|))
    ensures forall m: nat :: m in line <==> Waits(db, sid, m)
    ensures forall i, j | 0 <= i < j < |line| :: ComesBefore(db, line[i], line[j])
    ensures |line| == |Waiters(db, sid)|
  {
    var all, le := Line(db, sid, |db.members|), ArrivedBefore(db.members);
    line := SortBy(le, all);
    ArrivalIsOrder(db.members);
    SortBySorted(le, all);
    SameElements(line, all);
    forall m: nat ensures m in all <==> Waits(db, sid, m) {
      assert m in all <==> m < |db.members| && InLine(db, sid, m);
    }
    DistinctSize(all, Waiters(db, sid));
    OrderedLine(db, line, all);
  }

  lemma OrderedLine(db: Db, line: seq<nat>, all: seq<nat>)
    requires Sorted(ArrivedBefore(db.members), line) && multiset(line) == multiset(all)
    requires (forall i, j | 0 <= i < j < |all| :: all[i] < all[j]) && forall m | m in line :: m < |db.members|
    ensures forall i, j | 0 <= i < j < |line| :: ComesBefore(db, line[i], line[j])
  {
    var le := ArrivedBefore(db.members);
    SameElements(line, all);
    forall i, j | 0 <= i < j < |line| ensures ComesBefore(db, line[i], line[j]) {
      assert line[i] in line && line[j] in line && le(line[i], line[j]);
      if line[i] == line[j] {
        TwicePresent(line, i, j);
        var k :| 0 <= k < |all| && all[k] == line[i];
        OncePresent(all, k);
        assert false;
      }
    }
  }

  /** The next batch takes the waiting members in order of arrival, nobody being passed over, as many
      as there are up to a hundred. */
  lemma BatchByArrival(db: Db, sid: nat)
    ensures var batch := NextBatch(db, sid);
            && (forall m | m in batch :: Waits(db, sid, m))
            && (forall i, j | 0 <= i < j < |batch| :: ComesBefore(db, batch[i], batch[j]))
            && (forall m, n: nat | m in batch && n !in batch && Waits(db, sid, n) :: ComesBefore(db, m, n))
            && |batch| == if |Waiters(db, sid)| <= 100 then |Waiters(db, sid)| else 100
  {
    hide Line, SortBy, Waits, ComesBefore;
    var line := SortedLine(db, sid);
    var batch := NextBatch(db, sid);
    assert batch <= line;
    assert forall i | 0 <= i < |batch| :: batch[i] == line[i];
    forall m | m in batch ensures Waits(db, sid, m) {
      assert m in line;
    }
    forall m, n: nat | m in batch && n !in batch && Waits(db, sid, n) ensures ComesBefore(db, m, n) {
      var i :| 0 <= i < |batch| && batch[i] == m;
      assert n in line;
      var j :| 0 <= j < |line| && line[j] == n;
    }
  }

  // ----- failing, cancelling, pausing -----

  /** A failure under a held lease: a stale snapshot goes back for the next generation, up to the third;
      anything else ends the task. Its open plan and its leased work follow; the lease is given up;
      everything else stays. */
  lemma FailureOnRows(db: Db, tk: Ticket, failure: Failure)
    requires MayWrite(db, tk)
    ensures var (next, again) := (FinishFailure(db, tk, failure), failure == SnapshotStale && tk.generation < 3);
            && next.tasks[tk.task] == db.tasks[tk.task].(
                 status := if again then TaskPending else TaskFailed,
                 generation := if again then tk.generation + 1 else tk.generation, workerToken := 0)
            && (forall t | 0 <= t < |db.tasks| && t != tk.task :: next.tasks[t] == db.tasks[t])
            && |next.items| == |db.items|
            && (forall i | 0 <= i < |db.items| :: next.items[i] ==
                  if db.items[i].task == Some(tk.task) && db.items[i].status == ItemLeased
                  then db.items[i].(status := if again then ItemPending else ItemFailed) else db.items[i])
            && next.plans.Keys == db.plans.Keys
            && (forall k | k in db.plans :: next.plans[k] ==
                  if k == (tk.task, tk.generation) && db.plans[k].status == Proposed
                  then db.plans[k].(status := if failure == SnapshotStale then StalePlan else InvalidPlan) else db.plans[k])
            && next.scopes[tk.scope] == db.scopes[tk.scope].(leaseToken := 0, leaseUntil := None)
            && (forall s | 0 <= s < |db.scopes| && s != tk.scope :: next.scopes[s] == db.scopes[s])
            && next == db.(tasks := next.tasks, items := next.items, plans := next.plans, scopes := next.scopes)
  {}

  /** Cancelling ends a task that is not completed, drops its open plans and its pending or leased work,
      and takes its lease away, and only its own. */
  lemma CancelOnRows(db: Db, t: nat)
    requires t < |db.tasks| && db.tasks[t].scope < |db.scopes| && db.tasks[t].status != TaskCompleted
    ensures var (next, sid) := (CancelTask(db, t), db.tasks[t].scope);
            && next.tasks == db.tasks[t := db.tasks[t].(status := TaskCancelled)]
            && |next.items| == |db.items|
            && (forall i | 0 <= i < |db.items| :: next.items[i] ==
                  if db.items[i].task == Some(t) && db.items[i].status in {ItemPending, ItemLeased}
                  then db.items[i].(status := ItemCancelled) else db.items[i])
            && next.plans.Keys == db.plans.Keys
            && (forall k | k in db.plans :: next.plans[k] ==
                  if k.0 == t && db.plans[k].status == Proposed then db.plans[k].(status := CancelledPlan) else db.plans[k])
            && next.scopes == (if db.scopes[sid].leaseToken == db.tasks[t].workerToken
                               then db.scopes[sid := db.scopes[sid].(leaseToken := 0, leaseUntil := None)] else db.scopes)
            && next == db.(tasks := next.tasks, items := next.items, plans := next.plans, scopes := next.scopes)
  {}

  lemma CompletedNotCancelled(db: Db, t: nat)
    requires t < |db.tasks| && db.tasks[t].scope < |db.scopes| && db.tasks[t].status == TaskCompleted
    ensures CancelTask(db, t) == db
  {}

  /** Pausing or resuming at the expected revision starts a new epoch, takes the lease away, cancels the
      scope's unfinished tasks with their open plans, and gives their work back to the queue. A live
      lease stands in the way of resuming only. */
  lemma PauseOnRows(db: Db, sid: nat, paused: bool)
    requires sid < |db.scopes|
    requires !paused && db.scopes[sid].leaseUntil.Some? ==> db.scopes[sid].leaseUntil.value <= db.now
    ensures var (next, s) := (SetPaused(db, sid, paused, db.scopes[sid].revision), db.scopes[sid]);
            && next.scopes == db.scopes[sid := s.(paused := paused, epoch := s.epoch + 1, revision := s.revision + 1,
                                                  leaseToken := 0, leaseUntil := None)]
            && |next.tasks| == |db.tasks|
            && (forall t | 0 <= t < |db.tasks| :: next.tasks[t] ==
                  if db.tasks[t].scope == sid && db.tasks[t].status in {TaskPending, TaskRunning}
                  then db.tasks[t].(status := TaskCancelled) else db.tasks[t])
            && |next.items| == |db.items|
            && (forall i | 0 <= i < |db.items| && db.items[i].task.Some? && db.items[i].task.value < |db.tasks| ::
                  next.items[i] ==
                    if db.tasks[db.items[i].task.value].scope == sid && db.items[i].status in {ItemPending, ItemLeased}
                       && db.tasks[db.items[i].task.value].status in {TaskPending, TaskRunning, TaskCancelled}
                    then db.items[i].(status := ItemPending, task := None) else db.items[i])
            && (forall i | 0 <= i < |db.items| && db.items[i].task == None :: next.items[i] == db.items[i])
            && next == db.(tasks := next.tasks, items := next.items, plans := next.plans, scopes := next.scopes)
  {
    hide DropPlans, PlanKeys;
  }

  lemma PausedPlans(db: Db, sid: nat, paused: bool, k: (nat, nat))
    requires sid < |db.scopes| && k in db.plans && k.0 < |db.tasks|
    requires !paused && db.scopes[sid].leaseUntil.Some? ==> db.scopes[sid].leaseUntil.value <= db.now
    ensures var next := SetPaused(db, sid, paused, db.scopes[sid].revision);
            && k in next.plans
            && next.plans[k] == if db.tasks[k.0].scope == sid && db.plans[k].status == Proposed
                                   && db.tasks[k.0].status in {TaskPending, TaskRunning, TaskCancelled}
                                then db.plans[k].(status := CancelledPlan) else db.plans[k]
  {
    hide PauseItem;
  }

  lemma PauseRefused(db: Db, sid: nat, paused: bool, expected: nat)
    requires sid < |db.scopes|
    requires expected != db.scopes[sid].revision
             || (!paused && db.scopes[sid].leaseUntil.Some? && db.scopes[sid].leaseUntil.value > db.now)
    ensures SetPaused(db, sid, paused, expected) == db
  {}

  // ----- waking, cleaning, screening -----

  /** The newest log entry of a scope; 0 without one. */
  lemma {:induction false} RevisionOnRows(changes: seq<nat>, sid: nat)
    ensures LastChange(changes, sid) <= |changes|
    ensures LastChange(changes, sid) > 0 ==> changes[LastChange(changes, sid) - 1] == sid
    ensures forall i | LastChange(changes, sid) <= i < |changes| :: changes[i] != sid
  {
    if changes != [] {
      RevisionOnRows(changes[..|changes| - 1], sid);
      assert forall i | 0 <= i < |changes| - 1 :: changes[..|changes| - 1][i] == changes[i];
    }
  }

  /** Any change logged for a scope makes its waiting work stale, so that it is woken. */
  lemma ChangeMakesStale(db: Db, sid: nat, i: nat)
    requires sid < |db.scopes| && i < |db.items| && db.items[i].status == ItemWaiting && db.items[i].observed <= Revision(db, sid)
    ensures db.items[i].observed < Revision(db.(changes := db.changes + [sid]), sid)
  {
    RevisionOnRows(db.changes, sid);
  }

  /** Waking: a waiting item whose member is queued comes back to the queue if the scope has changed
      since it was last decided, no other work for the qualification is active, and none is newer. */
  lemma WakeOnRows(db: Db, sid: nat, i: nat)
    requires sid < |db.scopes| && i < |db.items|
    ensures var item := db.items[i];
            Wake(db, sid).items[i] ==
              if item.status == ItemWaiting && item.observed < db.scopes[sid].revision + LastChange(db.changes, sid)
                 && item.member < |db.members| && db.members[item.member].scope == sid
                 && db.members[item.member].status == PendingAllocation
                 && (forall j | 0 <= j < |db.items| && db.items[j].qualification == item.qualification ::
                       db.items[j].status !in {ItemPending, ItemLeased} && j <= i)
              then item.(status := ItemPending, task := None) else item
    ensures Wake(db, sid) == db.(items := Wake(db, sid).items) && |Wake(db, sid).items| == |db.items|
  {
    ActiveOnRows(db.items, db.items[i].qualification);
  }

  lemma ActiveOnRows(items: seq<Item>, q: nat)
    ensures !HasActive(items, q) <==>
              forall j | 0 <= j < |items| && items[j].qualification == q :: items[j].status !in {ItemPending, ItemLeased}
  {
    forall j | 0 <= j < |items| ensures Active(items[j]) <==> items[j].status in {ItemPending, ItemLeased} {}
  }

  /** Still pending on the current resume without an open or passed attempt, or already set back. */
  predicate MustBeScreenedAgain(db: Db, m: nat)
    requires m < |db.members|
  {
    var row := db.members[m];
    || row.status == NeedsReanalysis
    || (&& row.status == PendingAllocation && row.candidate < |db.workflows|
        && db.workflows[row.candidate].currentResume == Some(row.resume)
        && forall a | 0 <= a < |db.attempts| && db.attempts[a].candidate == row.candidate ::
             db.attempts[a].status in {AttemptRejected, AttemptCancelled})
  }

  /** Cleaning: of the task's members that may not be allocated, those that could have been but for
      their facts must be screened again; the unsettled work of all of them is cancelled; nobody else is
      touched. */
  lemma CleanOnRows(db: Db, ids: seq<nat>)
    ensures var next := Clean(db, ids);
            && |next.members| == |db.members| && |next.items| == |db.items|
            && (forall m | 0 <= m < |db.members| :: next.members[m] ==
                  if m in ids && !Valid(db, m) && MustBeScreenedAgain(db, m)
                  then db.members[m].(status := NeedsReanalysis, revision := db.members[m].revision + 1)
                  else db.members[m])
            && (forall i | 0 <= i < |db.items| && db.items[i].member < |db.members| :: next.items[i] ==
                  if db.items[i].member in ids && !Valid(db, db.items[i].member)
                     && db.items[i].status in {ItemPending, ItemLeased, ItemWaiting}
                  then db.items[i].(status := ItemCancelled) else db.items[i])
            && next == db.(members := next.members, items := next.items, changes := next.changes)
  {
    hide CleanChanges, Valid, Assigned;
    forall m | 0 <= m < |db.members| ensures MustBeScreenedAgain(db, m) <==> CleanStatus(db, m) == NeedsReanalysis {
      AssignedOnRows(db, db.members[m].candidate);
    }
  }

  // ----- assigning -----

  /** Carrying out a pick: the candidate's workflow is in progress on the resume, with one new attempt
      and its target; the membership is allocated, active memberships of other resumes of the candidate
      close, and the member's unsettled work is done. */
  lemma AssignOnRows(db: Db, tk: Ticket, d: Decision)
    requires 0 <= d.memberId < |db.members| && d.sequence >= 0 && d.qualificationRef >= 0
    requires db.members[d.memberId].candidate < |db.workflows|
    ensures var (next, row) := (AssignMember(db, tk, d), db.members[d.memberId]);
            && next.attempts == db.attempts + [Attempt(row.candidate, row.resume, PendingDispatch,
                 Some(Target(d.memberId, d.qualificationRef, tk.scope, d.demandId, d.departmentRef, d.sequence, db.now, false)))]
            && next.workflows == db.workflows[row.candidate := db.workflows[row.candidate].(status := InProgress, currentResume := Some(row.resume))]
            && |next.members| == |db.members|
            && (forall n | 0 <= n < |db.members| :: next.members[n] ==
                  if n == d.memberId then row.(status := MemberAllocated, revision := row.revision + 1)
                  else if db.members[n].candidate == row.candidate && db.members[n].resume != row.resume
                     && db.members[n].status in {MemberPendingReview, PendingAllocation, MemberAllocated, NeedsReanalysis}
                  then db.members[n].(status := MemberClosed, revision := db.members[n].revision + 1) else db.members[n])
            && |next.items| == |db.items|
            && (forall i | 0 <= i < |db.items| :: next.items[i] ==
                  if db.items[i].member == d.memberId && db.items[i].status in {ItemPending, ItemLeased, ItemWaiting}
                  then db.items[i].(status := ItemAssigned) else db.items[i])
  {
    hide TouchedScopes;
  }

  /** A decision names the tags it rests on: in increasing order exactly the required codes and the
      preferred ones held, each with its assertion. */
  lemma DecisionNamesTags(m: Member, d: Demand, t: Tally)
    requires DistinctCodes(m.tags) && Feasible(m, d)
    ensures var x := Assignment(m, d, t);
            && (forall c :: c in x.matchedTags <==> (c in d.required || (c in d.preferred && Supports(m, c))))
            && (forall c | c in d.required :: Supports(m, c))
            && |x.assertionRefs| == |x.matchedTags|
            && (forall i | 0 <= i < |x.matchedTags| :: Asserts(m, x.matchedTags[i], x.assertionRefs[i]))
            && (forall i, j | 0 <= i < j < |x.matchedTags| :: x.matchedTags[i] != x.matchedTags[j] && StringLe(x.matchedTags[i], x.matchedTags[j]))
  {
    hide StringLe, InOrder, TagTable, Holds, Supports, Asserts, Rank;
    var table := TagTable(m.tags);
    OrderedKeys(Matched(table, d));
    forall c ensures Holds(table, c) <==> Supports(m, c) {
      HeldIsSupported(m, c);
    }
    var keys := InOrder(Matched(table, d));
    forall i | 0 <= i < |keys| ensures Asserts(m, keys[i], RefsOf(table, keys)[i]) {
      assert keys[i] in keys;
      HeldIsSupported(m, keys[i]);
    }
  }

  lemma HeldIsSupported(m: Member, c: string)
    requires DistinctCodes(m.tags)
    ensures Holds(TagTable(m.tags), c) <==> Supports(m, c)
    ensures Holds(TagTable(m.tags), c) ==> Asserts(m, c, Ref(TagTable(m.tags), c))
  {
    hide TagTable;
    TagTableEntries(m.tags);
    if Holds(TagTable(m.tags), c) {
      var g :| g in m.tags && Usable(g) && g.code == c;
      assert Backed(g);
    }
    if Supports(m, c) {
      var g :| g in m.tags && g.code == c && g.assertionRef != "" && Backed(g);
      assert Usable(g);
    }
  }

  lemma OrderedKeys(s: set<string>)
    ensures forall c :: c in InOrder(s) <==> c in s
    ensures forall i, j | 0 <= i < j < |InOrder(s)| :: InOrder(s)[i] != InOrder(s)[j] && StringLe(InOrder(s)[i], InOrder(s)[j])
  {
    hide StringLe, SortBy, Listing;
    var keys := InOrder(s);
    StringOrder();
    SortBySorted(StringLe, Listing(s));
    forall c ensures c in keys <==> c in s {
      assert c in keys <==> c in multiset(keys);
      assert c in multiset(s) <==> c in s;
    }
    forall i, j | 0 <= i < j < |keys| ensures keys[i] != keys[j] {
      TwicePresent(keys, i, j);
    }
  }

  /** A tag counts if it is verified and supported, and stated by a person or with four fifths
      confidence. */
  predicate Backed(g: Tag) { g.verified && g.status == "supported" && (g.source == "manual" || g.confidenceBps >= 8000) }

  predicate Asserts(m: Member, code: string, reference: string) {
    reference != "" && exists g :: g in m.tags && g.code == code && g.assertionRef == reference && Backed(g)
  }

  predicate Supports(m: Member, code: string) {
    exists g :: g in m.tags && g.code == code && g.assertionRef != "" && Backed(g)
  }

  // ----- what the hash notices -----

  lemma CanonicalHas(s: Snapshot)
    ensures forall x :: x in Canonical(s).members <==> exists y :: y in s.members && CanonMember(y) == x
    ensures forall x :: x in Canonical(s).demands <==> exists y :: y in s.demands && CanonDemand(y) == x
  {
    hide CanonMember, CanonDemand, SortBy;
    EachHas(CanonMember, SortBy(ById, s.members), s.members);
    EachHas(CanonDemand, SortBy(ByDemandId, s.demands), s.demands);
  }

  lemma EachHas<T, U>(f: T -> U, xs: seq<T>, ys: seq<T>)
    requires multiset(xs) == multiset(ys)
    ensures forall x :: x in Each(f, xs) <==> exists y :: y in ys && f(y) == x
  {
    SameElements(xs, ys);
    forall x ensures x in Each(f, xs) <==> exists y :: y in ys && f(y) == x {
      if x in Each(f, xs) {
        var i :| 0 <= i < |xs| && Each(f, xs)[i] == x;
        assert xs[i] in ys && f(xs[i]) == x;
      }
      if y :| y in ys && f(y) == x {
        var i :| 0 <= i < |xs| && xs[i] == y;
        assert Each(f, xs)[i] == x;
      }
    }
  }

  /** Two readings with one hash agree, for every member of the task, on whether it may be allocated and
      on everything its row, its workflow and its newest qualification say. */
  lemma HashNoticesMembers(a: Db, b: Db, tk: Ticket, at: nat, later: nat, m: nat)
    requires Buildable(a, tk) && Buildable(b, tk) && m < |a.members| && m in tk.members && Valid(a, m)
    requires Canonical(Build(a, tk, at, Revision(a, tk.scope))) == Canonical(Build(b, tk, later, Revision(b, tk.scope)))
    ensures m < |b.members| && Valid(b, m)
    ensures Latest(b.quals, m) == Latest(a.quals, m) && Latest(a.quals, m).Some?
    ensures Latest(a.quals, m).value < |a.quals| && Latest(a.quals, m).value < |b.quals|
    ensures var (x, y) := (a.members[m], b.members[m]);
            && y.candidate == x.candidate && y.resume == x.resume && y.revision == x.revision && y.createdAt == x.createdAt
            && b.workflows[x.candidate].revision == a.workflows[x.candidate].revision
    ensures var (x, y) := (a.quals[Latest(a.quals, m).value], b.quals[Latest(a.quals, m).value]);
            && y.revision == x.revision && y.sourceRevision == x.sourceRevision && y.standardRef == x.standardRef
            && y.standardHash == x.standardHash && multiset(y.tags) == multiset(x.tags)
  {
    hide Canonical, Valid, Supplied, SortBy, Latest, Revision;
    var s, n := Build(a, tk, at, Revision(a, tk.scope)), Build(b, tk, later, Revision(b, tk.scope));
    SnapshotMembersListed(a, tk.scope, at, tk.members, |a.members|);
    SnapshotMembersListed(b, tk.scope, later, tk.members, |b.members|);
    CanonicalHas(s);
    CanonicalHas(n);
    var x := SnapshotMember(a, tk.scope, at, m);
    assert x in s.members && CanonMember(x) in Canonical(s).members;
    var y :| y in n.members && CanonMember(y) == CanonMember(x);
    MemberIdKept(a, tk.scope, at, m);
    assert y.memberId == m && y == SnapshotMember(b, tk.scope, later, m);
    ReadsRows(a, tk.scope, at, m);
    ReadsRows(b, tk.scope, later, m);
  }

  /** A snapshot's member carries its rows. */
  lemma ReadsRows(db: Db, sid: nat, at: nat, m: nat)
    requires m < |db.members| && Valid(db, m) && sid < |db.demands|
    ensures Latest(db.quals, m).Some? && Latest(db.quals, m).value < |db.quals| && db.members[m].candidate < |db.workflows|
    ensures var (x, row, q) := (SnapshotMember(db, sid, at, m), db.members[m], Latest(db.quals, m).value);
            && x.memberId == m && x.candidateRef == row.candidate && x.applicationRef == row.resume && x.createdAt == row.createdAt
            && x.memberRevision == row.revision && x.workflowRevision == db.workflows[row.candidate].revision
            && x.qualificationRef == q && x.qualificationRevision == db.quals[q].revision
            && x.sourceRevision == db.quals[q].sourceRevision && x.standardRef == db.quals[q].standardRef
            && x.standardHash == db.quals[q].standardHash && x.tags == db.quals[q].tags
            && (forall c: nat :: c in x.allowed <==> exists i :: 0 <= i < |db.demands[sid]| && db.demands[sid][i].demandId == c)
            && (forall c: nat :: c in x.counted <==>
                  exists d :: d in db.demands[sid] && d.demandId == c && row.candidate in Supplied(db, sid, c, at))
  {
    hide Supplied, Assigned;
    LatestIsQualification(db.quals, m);
    var rows := db.demands[sid];
    forall c: nat ensures c in Each2(rows) <==> exists i :: 0 <= i < |rows| && rows[i].demandId == c {
      if i :| 0 <= i < |rows| && rows[i].demandId == c {
        assert Each2(rows)[i] == c;
      }
    }
  }

  /** And on every demand: its revision, department, reception, rules, priority and quantities; and on the
      scope's epoch and sequence, the policy, and the change revision. */
  lemma HashNoticesDemands(a: Db, b: Db, tk: Ticket, at: nat, later: nat, j: nat)
    requires Buildable(a, tk) && Buildable(b, tk) && j < |a.demands[tk.scope]|
    requires Canonical(Build(a, tk, at, Revision(a, tk.scope))) == Canonical(Build(b, tk, later, Revision(b, tk.scope)))
    ensures Revision(b, tk.scope) == Revision(a, tk.scope) && b.policyRevision == a.policyRevision
    ensures b.scopes[tk.scope].epoch == a.scopes[tk.scope].epoch
            && b.scopes[tk.scope].nextSequence == a.scopes[tk.scope].nextSequence
    ensures exists k :: 0 <= k < |b.demands[tk.scope]| && SameDemandRow(a.demands[tk.scope][j], b.demands[tk.scope][k])
              && |Supplied(b, tk.scope, a.demands[tk.scope][j].demandId, later)| == |Supplied(a, tk.scope, a.demands[tk.scope][j].demandId, at)|
  {
    hide SnapshotMembers, Supplied, SortBy, LastSequence, Revision;
    var s, n := Build(a, tk, at, Revision(a, tk.scope)), Build(b, tk, later, Revision(b, tk.scope));
    CanonicalHas(s);
    CanonicalHas(n);
    var x := s.demands[j];
    assert x in s.demands && CanonDemand(x) in Canonical(s).demands;
    var y :| y in n.demands && CanonDemand(y) == CanonDemand(x);
    var k :| 0 <= k < |n.demands| && n.demands[k] == y;
    SortedSame(x.required, y.required);
    SortedSame(x.preferred, y.preferred);
    assert SameDemandRow(a.demands[tk.scope][j], b.demands[tk.scope][k]);
  }

  predicate SameDemandRow(x: DemandRow, y: DemandRow) {
    && y.demandId == x.demandId && y.department == x.department && y.revision == x.revision && y.reception == x.reception
    && y.priority == x.priority && multiset(y.required) == multiset(x.required) && multiset(y.preferred) == multiset(x.preferred)
  }

  lemma SortedSame(x: seq<string>, y: seq<string>)
    requires SortBy(StringLe, x) == SortBy(StringLe, y)
    ensures multiset(x) == multiset(y)
  {
    hide SortBy;
  }
}
