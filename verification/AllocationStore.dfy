/** The tables of the allocation engine and, as functions on them, the transactions that read and
    write them. Append-only tables with generated keys are sequences indexed by the key. */
module AllocationStore {
  import opened AllocationTypes
  import opened AllocationPolicy
  import opened AllocationCanonical
  import opened Orders

  datatype Option<+T> = None | Some(value: T)

  // ----- rows -----

  datatype Mode = Simulate | Execute
  datatype TaskStatus = TaskPending | TaskRunning | TaskCompleted | TaskFailed | TaskCancelled
  datatype ItemStatus = ItemPending | ItemLeased | ItemAssigned | ItemWaiting | ItemFailed | ItemCancelled
  datatype MemberStatus =
    MemberPendingReview | PendingAllocation | MemberAllocated | NeedsReanalysis | MemberClosed | MemberRejected
  datatype WorkflowStatus = WorkflowOpen | InProgress | WorkflowPassed | Archived | WaitingNext | TalentPool
  datatype AttemptStatus =
    PendingReview | PendingDispatch | Dispatched | AttemptPassed | AttemptRejected | AttemptCancelled
  datatype PlanStatus = Proposed | Simulated | Committed | StalePlan | InvalidPlan | CancelledPlan

  /** A caller's idempotency key, or one generated from a fresh token. */
  datatype Key = CallerKey(text: string) | TokenKey(token: nat)

  /** leaseToken 0 stands for the empty token. */
  datatype Scope = Scope(
    paused: bool, revision: nat, epoch: nat, nextSequence: nat, leaseToken: nat, leaseUntil: Option<nat>)

  datatype Task = Task(
    scope: nat, mode: Mode, status: TaskStatus, generation: nat, key: Key, members: seq<nat>,
    createdBy: Option<nat>, workerToken: nat)

  datatype Item = Item(
    member: nat, qualification: nat, task: Option<nat>, status: ItemStatus, observed: nat)

  /** factsCurrent: standard, pool, source file and candidate inputs still match the assessment. */
  datatype MemberRow = MemberRow(
    candidate: nat, resume: nat, scope: nat, status: MemberStatus, revision: nat, createdAt: nat,
    factsCurrent: bool)

  datatype Qualification = Qualification(
    member: nat, revision: nat, sourceRevision: nat, standardRef: string, standardHash: string, tags: seq<Tag>)

  datatype Workflow = Workflow(status: WorkflowStatus, revision: nat, currentResume: Option<nat>)

  datatype Target = Target(
    member: nat, qualification: nat, scope: nat, demand: nat, department: int, sequence: nat,
    allocatedAt: nat, dispatched: bool)

  datatype Attempt = Attempt(candidate: nat, resume: nat, status: AttemptStatus, target: Option<Target>)

  datatype PlanRow = PlanRow(hash: Snapshot, decisions: seq<Decision>, status: PlanStatus)

  /** An active rule of the scope joined with its active job. */
  datatype DemandRow = DemandRow(
    demandId: nat, department: int, revision: int, reception: Reception,
    required: seq<string>, preferred: seq<string>, priority: int)

  datatype Db = Db(
    now: nat, nextToken: nat,
    scopes: seq<Scope>, tasks: seq<Task>, items: seq<Item>, plans: map<(nat, nat), PlanRow>,
    members: seq<MemberRow>, quals: seq<Qualification>, workflows: seq<Workflow>,
    attempts: seq<Attempt>, closed: set<nat>,
    demands: seq<seq<DemandRow>>, policyRevision: nat, changes: seq<nat>)

  const DEMAND_LIMIT: nat := 200
  const MAX_GENERATION: nat := 3
  const SECOND: nat := 1000000
  const LEASE: nat := 90 * SECOND
  const SNAPSHOT_AGE: nat := 60 * SECOND
  const WINDOW: nat := 7 * 86400 * SECOND

  // ----- updating rows -----

  function Update<T>(rows: seq<T>, f: T -> T): (r: seq<T>)
    ensures |r| == |rows| && forall i | 0 <= i < |rows| :: r[i] == f(rows[i])
  {
    seq(|rows|, i requires 0 <= i < |rows| => f(rows[i]))
  }

  // ----- predicates on rows -----

  predicate Live(t: Task) { t.status == TaskPending || t.status == TaskRunning }

  predicate Active(i: Item) { i.status == ItemPending || i.status == ItemLeased }

  predicate Unsettled(i: Item) { Active(i) || i.status == ItemWaiting }

  predicate Effective(a: Attempt) {
    a.status == PendingReview || a.status == PendingDispatch || a.status == Dispatched || a.status == AttemptPassed
  }

  predicate ActiveMembership(m: MemberRow) {
    m.status == MemberPendingReview || m.status == PendingAllocation
    || m.status == MemberAllocated || m.status == NeedsReanalysis
  }

  /** The newest change-log id of a scope, 0 when it has none. */
  function LastChange(changes: seq<nat>, sid: nat): nat {
    if changes == [] then 0
    else if changes[|changes| - 1] == sid then |changes|
    else LastChange(changes[..|changes| - 1], sid)
  }

  function Revision(db: Db, sid: nat): nat
    requires sid < |db.scopes|
  {
    db.scopes[sid].revision + LastChange(db.changes, sid)
  }

  /** The member's newest qualification. */
  function Latest(quals: seq<Qualification>, m: nat): Option<nat> {
    if quals == [] then None
    else if quals[|quals| - 1].member == m then Some(|quals| - 1)
    else Latest(quals[..|quals| - 1], m)
  }

  predicate NewestItem(items: seq<Item>, i: nat)
    requires i < |items|
  {
    forall j | i < j < |items| :: items[j].qualification != items[i].qualification
  }

  predicate HasActive(items: seq<Item>, q: nat) {
    exists i :: 0 <= i < |items| && items[i].qualification == q && Active(items[i])
  }

  // ----- creating a task -----

  datatype CreateResult = Created(task: nat) | Existing(task: nat) | Refused

  function FindKey(tasks: seq<Task>, key: Key): (r: Option<nat>)
    ensures r.Some? ==> r.value < |tasks| && tasks[r.value].key == key
  {
    if tasks == [] then None
    else if tasks[|tasks| - 1].key == key then Some(|tasks| - 1)
    else FindKey(tasks[..|tasks| - 1], key)
  }

  /** INSERT ... ON CONFLICT DO NOTHING against the active-work index. */
  function InsertItem(items: seq<Item>, q: nat, m: nat, task: Option<nat>): seq<Item> {
    if HasActive(items, q) then items else items + [Item(m, q, task, ItemPending, 0)]
  }

  function InsertItems(items: seq<Item>, quals: seq<Qualification>, ids: seq<nat>, task: nat): seq<Item> {
    if ids == [] then items
    else
      var rest := InsertItems(items, quals, ids[..|ids| - 1], task);
      match Latest(quals, ids[|ids| - 1])
      case None => rest
      case Some(q) => InsertItem(rest, q, ids[|ids| - 1], Some(task))
  }

  function AttachItem(ids: seq<nat>, task: nat): Item -> Item {
    (i: Item) => if i.member in ids && i.status == ItemPending && i.task == None then i.(task := Some(task)) else i
  }

  function CreateTask(db: Db, sid: nat, ids: seq<nat>, mode: Mode, key: Option<Key>, actor: Option<nat>): (r: (Db, CreateResult))
    requires sid < |db.scopes|
    ensures r.0 == db.(nextToken := r.0.nextToken, tasks := r.0.tasks, items := r.0.items)
    ensures r.1.Created? ==> r.1.task == |db.tasks| && |r.0.tasks| == |db.tasks| + 1 && r.0.tasks[..|db.tasks|] == db.tasks
    ensures !r.1.Created? ==> r.0.tasks == db.tasks && r.0.items == db.items
  {
    if db.scopes[sid].paused && mode != Simulate then (db, Refused)
    else if |ids| == 0 || |ids| > TASK_LIMIT then (db, Refused)
    else
      var k := if key.Some? then key.value else TokenKey(db.nextToken);
      var db := if key.Some? then db else db.(nextToken := db.nextToken + 1);
      match FindKey(db.tasks, k)
      case Some(t) =>
        var found := db.tasks[t];
        if found.scope == sid && found.members == ids && found.mode == mode && found.createdBy == actor
        then (db, Existing(t)) else (db, Refused)
      case None =>
        var t := |db.tasks|;
        var db := db.(tasks := db.tasks + [Task(sid, mode, TaskPending, 1, k, ids, actor, 0)]);
        if mode == Simulate then (db, Created(t))
        else
          var items := InsertItems(db.items, db.quals, ids, t);
          (db.(items := Update(items, AttachItem(ids, t))), Created(t))
  }

  // ----- claiming -----

  predicate LeaseFree(s: Scope, now: nat) { s.leaseUntil == None || s.leaseUntil.value < now }

  predicate HasLiveTask(db: Db, sid: nat)
    requires sid < |db.scopes|
  {
    exists t :: 0 <= t < |db.tasks| && db.tasks[t].scope == sid && Live(db.tasks[t])
      && (!db.scopes[sid].paused || db.tasks[t].mode == Simulate)
  }

  predicate QueuedMember(db: Db, sid: nat, m: nat) {
    m < |db.members| && db.members[m].scope == sid && db.members[m].status == PendingAllocation
  }

  predicate NoNewerQualification(quals: seq<Qualification>, q: nat, m: nat) {
    forall newer | q < newer < |quals| :: quals[newer].member != m
  }

  predicate ClaimableItem(db: Db, sid: nat, i: nat)
    requires sid < |db.scopes| && i < |db.items|
  {
    var it := db.items[i];
    && QueuedMember(db, sid, it.member)
    && NewestItem(db.items, i)
    && NoNewerQualification(db.quals, it.qualification, it.member)
    && (it.status == ItemPending || (it.status == ItemWaiting && it.observed < Revision(db, sid)))
  }

  predicate Claimable(db: Db, sid: nat) {
    && sid < |db.scopes|
    && LeaseFree(db.scopes[sid], db.now)
    && (HasLiveTask(db, sid)
        || (!db.scopes[sid].paused && exists i :: 0 <= i < |db.items| && ClaimableItem(db, sid, i)))
  }

  function RecoverTask(sid: nat): Task -> Task {
    (t: Task) =>
      if t.scope == sid && t.status == TaskRunning
      then t.(status := if t.generation >= MAX_GENERATION then TaskFailed else TaskPending,
              generation := t.generation + 1, workerToken := 0)
      else t
  }

  function RecoverItem(tasks: seq<Task>, sid: nat): Item -> Item {
    (i: Item) =>
      if i.status == ItemLeased && i.task.Some? && i.task.value < |tasks| && tasks[i.task.value].scope == sid
         && (tasks[i.task.value].status == TaskPending || tasks[i.task.value].status == TaskFailed)
      then i.(status := if tasks[i.task.value].status == TaskFailed then ItemFailed else ItemPending)
      else i
  }

  /** Expired workers cannot commit; their task starts a fresh generation. */
  function Recover(db: Db, sid: nat): Db {
    var tasks := Update(db.tasks, RecoverTask(sid));
    db.(tasks := tasks, items := Update(db.items, RecoverItem(tasks, sid)))
  }

  predicate Claims(t: Task, sid: nat, paused: bool) {
    t.scope == sid && t.status == TaskPending && (!paused || t.mode == Simulate)
  }

  /** The oldest pending task a worker may take. */
  function FirstPending(tasks: seq<Task>, sid: nat, paused: bool): (r: Option<nat>)
    ensures r.Some? ==> r.value < |tasks| && Claims(tasks[r.value], sid, paused)
    ensures r.None? ==> forall t | 0 <= t < |tasks| :: !Claims(tasks[t], sid, paused)
  {
    if tasks == [] then None
    else
      var rest := FirstPending(tasks[..|tasks| - 1], sid, paused);
      if rest.Some? then rest
      else if Claims(tasks[|tasks| - 1], sid, paused) then Some(|tasks| - 1)
      else None
  }

  predicate Wakes(db: Db, sid: nat, i: nat)
    requires sid < |db.scopes| && i < |db.items|
  {
    var it := db.items[i];
    && it.status == ItemWaiting && it.observed < Revision(db, sid)
    && QueuedMember(db, sid, it.member)
    && !HasActive(db.items, it.qualification)
    && NewestItem(db.items, i)
  }

  function Wake(db: Db, sid: nat): Db
    requires sid < |db.scopes|
  {
    db.(items := seq(|db.items|, i requires 0 <= i < |db.items| =>
      if Wakes(db, sid, i) then db.items[i].(status := ItemPending, task := None) else db.items[i]))
  }

  predicate InLine(db: Db, sid: nat, m: nat) {
    QueuedMember(db, sid, m)
    && exists i :: 0 <= i < |db.items| && db.items[i].member == m && db.items[i].status == ItemPending
  }

  function Line(db: Db, sid: nat, n: nat): (r: seq<nat>)
    requires n <= |db.members|
    ensures forall m: nat :: m in r <==> m < n && InLine(db, sid, m)
    ensures forall i, j | 0 <= i < j < |r| :: r[i] < r[j]
  {
    if n == 0 then []
    else
      var rest := Line(db, sid, n - 1);
      assert forall i | 0 <= i < |rest| :: rest[i] in rest;
      if InLine(db, sid, n - 1) then rest + [n - 1] else rest
  }

  /** ORDER BY created_at, id. */
  function ArrivedBefore(members: seq<MemberRow>): (nat, nat) -> bool {
    (a: nat, b: nat) =>
      var x := if a < |members| then members[a].createdAt else 0;
      var y := if b < |members| then members[b].createdAt else 0;
      x < y || (x == y && a <= b)
  }

  function NextBatch(db: Db, sid: nat): (r: seq<nat>)
    ensures |r| <= TASK_LIMIT
  {
    var line := SortBy(ArrivedBefore(db.members), Line(db, sid, |db.members|));
    if |line| <= TASK_LIMIT then line else line[..TASK_LIMIT]
  }

  /** What a worker keeps in memory about its claim. */
  datatype Ticket = Ticket(scope: nat, task: nat, generation: nat, token: nat, mode: Mode, members: seq<nat>)

  function LeaseItem(ids: seq<nat>, task: nat): Item -> Item {
    (i: Item) => if i.member in ids && i.status == ItemPending then i.(status := ItemLeased, task := Some(task)) else i
  }

  /** Fence, lease and generation of a claim. */
  function Grant(db: Db, sid: nat, t: nat): (Db, Ticket)
    requires sid < |db.scopes| && t < |db.tasks|
  {
    var fence := db.nextToken;
    var task := db.tasks[t].(status := TaskRunning, workerToken := fence);
    var db := db.(
      nextToken := fence + 1,
      scopes := db.scopes[sid := db.scopes[sid].(leaseToken := fence, leaseUntil := Some(db.now + LEASE))],
      tasks := db.tasks[t := task]);
    var db := if task.mode == Simulate then db else db.(items := Update(db.items, LeaseItem(task.members, t)));
    (db, Ticket(sid, t, task.generation, fence, task.mode, task.members))
  }

  function Claim(db: Db, sid: nat): (Db, Option<Ticket>)
    requires sid < |db.scopes|
  {
    var db := Recover(db, sid);
    var paused := db.scopes[sid].paused;
    match FirstPending(db.tasks, sid, paused)
    case Some(t) =>
      var (db, tk) := Grant(db, sid, t);
      (db, Some(tk))
    case None =>
      if paused then (db, None)
      else
        var db := Wake(db, sid);
        var ids := NextBatch(db, sid);
        if ids == [] then (db, None)
        else
          var (db, result) := CreateTask(db, sid, ids, Execute, None, None);
          match result
          case Created(t) =>
            var (db, tk) := Grant(db, sid, t);
            (db, Some(tk))
          case _ => (db, None)
  }

  // ----- the lease -----

  predicate LeaseHeld(db: Db, tk: Ticket) {
    && tk.scope < |db.scopes| && tk.task < |db.tasks|
    && (var s, t := db.scopes[tk.scope], db.tasks[tk.task];
        && (!s.paused || tk.mode == Simulate)
        && s.leaseToken == tk.token && s.leaseUntil.Some? && s.leaseUntil.value > db.now
        && t.generation == tk.generation && t.status == TaskRunning && t.workerToken == tk.token)
  }

  function Release(db: Db, sid: nat, token: nat): Db
    requires sid < |db.scopes|
  {
    if db.scopes[sid].leaseToken == token
    then db.(scopes := db.scopes[sid := db.scopes[sid].(leaseToken := 0, leaseUntil := None)])
    else db
  }

  // ----- the snapshot -----

  predicate Assigned(db: Db, candidate: nat) {
    exists a :: 0 <= a < |db.attempts| && db.attempts[a].candidate == candidate && Effective(db.attempts[a])
  }

  predicate OnCurrentResume(db: Db, m: nat)
    requires m < |db.members|
  {
    var row := db.members[m];
    row.candidate < |db.workflows| && db.workflows[row.candidate].currentResume == Some(row.resume)
  }

  /** allocationQualificationValid. */
  predicate Valid(db: Db, m: nat)
    requires m < |db.members|
  {
    var row := db.members[m];
    && Latest(db.quals, m).Some?
    && row.status == PendingAllocation
    && OnCurrentResume(db, m)
    && !Assigned(db, row.candidate)
    && db.workflows[row.candidate].status !in {WorkflowPassed, Archived, WaitingNext, TalentPool}
    && row.factsCurrent
  }

  /** Targets that count as supply: effective, or dispatched at some time. */
  predicate Counts(a: Attempt, sid: nat, demand: nat) {
    a.target.Some? && a.target.value.scope == sid && a.target.value.demand == demand
    && (Effective(a) || a.target.value.dispatched)
  }

  predicate InWindow(a: Attempt, at: nat) {
    a.target.Some? && a.target.value.allocatedAt < at && at <= a.target.value.allocatedAt + WINDOW
  }

  /** Distinct candidates allocated to the demand in the seven days before at. */
  function Supplied(db: Db, sid: nat, demand: nat, at: nat): set<nat> { Suppliers(db.attempts, sid, demand, at) }

  function Suppliers(attempts: seq<Attempt>, sid: nat, demand: nat, at: nat): set<nat> {
    set a | 0 <= a < |attempts| && Supplies(attempts[a], sid, demand, at) :: attempts[a].candidate
  }

  predicate Supplies(a: Attempt, sid: nat, demand: nat, at: nat) { Counts(a, sid, demand) && InWindow(a, at) }

  function LastSequence(attempts: seq<Attempt>, sid: nat, demand: nat): nat {
    if attempts == [] then 0
    else
      var a := attempts[|attempts| - 1];
      var rest := LastSequence(attempts[..|attempts| - 1], sid, demand);
      if Counts(a, sid, demand) && a.target.value.sequence > rest then a.target.value.sequence else rest
  }

  function SnapshotDemand(db: Db, sid: nat, at: nat): DemandRow -> Demand {
    (d: DemandRow) => Demand(d.demandId, d.department, d.revision, d.reception, d.required, d.preferred, d.priority,
                             |Supplied(db, sid, d.demandId, at)|, LastSequence(db.attempts, sid, d.demandId))
  }

  function Each2(rows: seq<DemandRow>): (r: seq<int>)
    ensures |r| == |rows| && forall i | 0 <= i < |rows| :: r[i] == rows[i].demandId
  {
    seq(|rows|, i requires 0 <= i < |rows| => rows[i].demandId)
  }

  function CountedFor(db: Db, sid: nat, candidate: nat, at: nat, rows: seq<DemandRow>): (r: seq<int>)
    ensures forall c :: c in r <==> exists d :: d in rows && d.demandId == c && candidate in Supplied(db, sid, d.demandId, at)
  {
    if rows == [] then []
    else
      var n := |rows| - 1;
      assert rows == rows[..n] + [rows[n]];
      CountedFor(db, sid, candidate, at, rows[..n])
      + if candidate in Supplied(db, sid, rows[n].demandId, at) then [rows[n].demandId as int] else []
  }

  function SnapshotMember(db: Db, sid: nat, at: nat, m: nat): Member
    requires m < |db.members| && Valid(db, m) && sid < |db.demands|
  {
    var row, q := db.members[m], Latest(db.quals, m).value;
    LatestIsQualification(db.quals, m);
    Member(m, row.candidate, row.resume, q, db.quals[q].revision, row.revision,
           db.workflows[row.candidate].revision, db.quals[q].sourceRevision, db.quals[q].standardRef,
           db.quals[q].standardHash, row.createdAt, db.quals[q].tags,
           Each2(db.demands[sid]), CountedFor(db, sid, row.candidate, at, db.demands[sid]))
  }

  lemma {:induction false} LatestIsQualification(quals: seq<Qualification>, m: nat)
    ensures Latest(quals, m).Some? ==> Latest(quals, m).value < |quals| && quals[Latest(quals, m).value].member == m
    ensures forall q | 0 <= q < |quals| && quals[q].member == m :: Latest(quals, m).Some? && q <= Latest(quals, m).value
  {
    if quals != [] {
      LatestIsQualification(quals[..|quals| - 1], m);
    }
  }

  function SnapshotMembers(db: Db, sid: nat, at: nat, ids: seq<nat>, n: nat): seq<Member>
    requires n <= |db.members| && sid < |db.demands|
  {
    if n == 0 then []
    else
      var rest := SnapshotMembers(db, sid, at, ids, n - 1);
      if n - 1 in ids && Valid(db, n - 1) then rest + [SnapshotMember(db, sid, at, n - 1)] else rest
  }

  lemma MemberIdKept(db: Db, sid: nat, at: nat, m: nat)
    requires m < |db.members| && Valid(db, m) && sid < |db.demands|
    ensures SnapshotMember(db, sid, at, m).memberId == m
  {}

  /** The snapshot lists exactly the valid members among the ids, each once. */
  lemma {:induction false} SnapshotMembersListed(db: Db, sid: nat, at: nat, ids: seq<nat>, n: nat)
    requires n <= |db.members| && sid < |db.demands|
    ensures var r := SnapshotMembers(db, sid, at, ids, n);
            && (forall x | x in r ::
                  0 <= x.memberId < n && x.memberId in ids && Valid(db, x.memberId) && x == SnapshotMember(db, sid, at, x.memberId))
            && (forall m | 0 <= m < n && m in ids && Valid(db, m) :: SnapshotMember(db, sid, at, m) in r)
            && (forall i, j | 0 <= i < j < |r| :: r[i].memberId < r[j].memberId)
  {
    hide Valid, SnapshotMember;
    if n > 0 {
      SnapshotMembersListed(db, sid, at, ids, n - 1);
      if Valid(db, n - 1) {
        MemberIdKept(db, sid, at, n - 1);
      }
      var rest, r := SnapshotMembers(db, sid, at, ids, n - 1), SnapshotMembers(db, sid, at, ids, n);
      assert forall i | 0 <= i < |rest| :: rest[i] in rest && r[i] == rest[i];
    }
  }

  /** The snapshot cannot be built for a foreign member or beyond the demand limit. */
  predicate Buildable(db: Db, tk: Ticket) {
    && tk.scope < |db.scopes| && tk.scope < |db.demands|
    && (forall m | m in tk.members && m < |db.members| :: db.members[m].scope == tk.scope)
    && |db.demands[tk.scope]| <= DEMAND_LIMIT
  }

  function Build(db: Db, tk: Ticket, at: nat, revision: nat): Snapshot
    requires Buildable(db, tk)
  {
    var s := db.scopes[tk.scope];
    Snapshot(tk.task, tk.generation, at, tk.scope, revision, db.policyRevision, s.epoch, s.nextSequence,
             SnapshotMembers(db, tk.scope, at, tk.members, |db.members|),
             Each(SnapshotDemand(db, tk.scope, at), db.demands[tk.scope]))
  }

  // ----- cleaning invalid members -----

  predicate Displaced(db: Db, m: nat)
    requires m < |db.members|
  {
    db.members[m].status != PendingAllocation || Assigned(db, db.members[m].candidate) || !OnCurrentResume(db, m)
  }

  /** The status an invalid member is left with. */
  function CleanStatus(db: Db, m: nat): MemberStatus
    requires m < |db.members|
  {
    if Displaced(db, m) then db.members[m].status else NeedsReanalysis
  }

  predicate Cleaned(db: Db, ids: seq<nat>, m: nat) { m < |db.members| && m in ids && !Valid(db, m) }

  predicate Restated(db: Db, ids: seq<nat>, m: nat) { Cleaned(db, ids, m) && CleanStatus(db, m) == NeedsReanalysis }

  function CleanItem(db: Db, ids: seq<nat>): Item -> Item {
    (i: Item) => if Cleaned(db, ids, i.member) && Unsettled(i) then i.(status := ItemCancelled) else i
  }

  /** The scopes a change to one of the candidate's rows is logged for. */
  function TouchedScopes(members: seq<MemberRow>, candidate: nat, n: nat): seq<nat> {
    if n == 0 then []
    else
      var here := exists m :: 0 <= m < |members| && members[m].candidate == candidate && members[m].scope == n - 1;
      TouchedScopes(members, candidate, n - 1) + (if here then [n - 1] else [])
  }

  function CleanChanges(db: Db, ids: seq<nat>, n: nat): seq<nat>
    requires n <= |db.members|
  {
    if n == 0 then []
    else
      var logged := if Restated(db, ids, n - 1) then TouchedScopes(db.members, db.members[n - 1].candidate, |db.scopes|) else [];
      CleanChanges(db, ids, n - 1) + logged
  }

  function Clean(db: Db, ids: seq<nat>): Db {
    db.(
      members := seq(|db.members|, m requires 0 <= m < |db.members| =>
        if Restated(db, ids, m) then db.members[m].(status := NeedsReanalysis, revision := db.members[m].revision + 1)
        else db.members[m]),
      items := Update(db.items, CleanItem(db, ids)),
      changes := db.changes + CleanChanges(db, ids, |db.members|))
  }

  // ----- processing -----

  datatype Request = Request(task: nat, generation: nat, pin: nat, snapshot: Snapshot, hash: Snapshot)

  datatype Response = Response(
    task: nat, generation: nat, pin: nat, hash: Snapshot, done: bool, decisions: seq<Decision>)

  datatype Failure = LeaseLost | Denied | SnapshotStale | OtherFailure

  datatype ProcessResult = ProcessFailed(failure: Failure) | NothingEligible | Computing(request: Request)

  /** A member whose application is closed cannot be restated; the transaction rolls back. */
  predicate CleanBlocked(db: Db, ids: seq<nat>) {
    exists m :: 0 <= m < |db.members| && Restated(db, ids, m) && db.members[m].resume in db.closed
  }

  function Complete(db: Db, tk: Ticket): Db
    requires tk.scope < |db.scopes| && tk.task < |db.tasks|
  {
    Release(db.(tasks := db.tasks[tk.task := db.tasks[tk.task].(status := TaskCompleted)]), tk.scope, tk.token)
  }

  function Process(db: Db, tk: Ticket, pin: nat, authorized: bool): (Db, ProcessResult) {
    if !LeaseHeld(db, tk) then (db, ProcessFailed(LeaseLost))
    else if !authorized then (db, ProcessFailed(Denied))
    else if !Buildable(db, tk) || (tk.mode == Execute && CleanBlocked(db, tk.members)) then (db, ProcessFailed(OtherFailure))
    else
      var after := if tk.mode == Execute then Clean(db, tk.members) else db;
      var s := Build(db, tk, db.now, Revision(after, tk.scope));
      if s.members == [] then (Complete(after, tk), NothingEligible)
      else (after, Computing(Request(tk.task, tk.generation, pin, s, Canonical(s))))
  }

  // ----- the Kernel's answer -----

  /** validateAllocationResult: identity of the task and full equality with the recomputation. */
  ghost predicate Accepts(q: Request, r: Response) {
    && r.task == q.task && r.generation == q.generation && r.hash == q.hash && r.pin == q.pin && r.done
    && r.decisions == Plan(q.snapshot)
  }

  /** INSERT ... ON CONFLICT DO NOTHING. */
  function RecordPlan(db: Db, tk: Ticket, q: Request, decisions: seq<Decision>, status: PlanStatus): Db {
    if (tk.task, tk.generation) in db.plans then db
    else db.(plans := db.plans[(tk.task, tk.generation) := PlanRow(q.hash, decisions, status)])
  }

  // ----- committing -----

  function WaitItem(m: int, task: nat): Item -> Item {
    (i: Item) => if i.member == m && i.task == Some(task) && i.status == ItemLeased then i.(status := ItemWaiting) else i
  }

  function SettleItem(m: int): Item -> Item {
    (i: Item) => if i.member == m && Unsettled(i) then i.(status := ItemAssigned) else i
  }

  function NewAttempt(row: MemberRow, now: nat, scope: nat, d: Decision): Attempt
    requires 0 <= d.memberId && d.sequence >= 0 && d.qualificationRef >= 0
  {
    Attempt(row.candidate, row.resume, PendingDispatch,
            Some(Target(d.memberId, d.qualificationRef, scope, d.demandId, d.departmentRef, d.sequence, now, false)))
  }

  /** The membership is allocated; the candidate's active memberships of other resumes close. */
  function Allocate(members: seq<MemberRow>, m: nat): (r: seq<MemberRow>)
    requires m < |members|
    ensures |r| == |members|
  {
    var row := members[m];
    seq(|members|, n requires 0 <= n < |members| =>
      if n == m then row.(status := MemberAllocated, revision := row.revision + 1)
      else if members[n].candidate == row.candidate && members[n].resume != row.resume && ActiveMembership(members[n])
      then members[n].(status := MemberClosed, revision := members[n].revision + 1)
      else members[n])
  }

  /** createAttempt for an assigned member, with everything the commit writes beside it. */
  function AssignMember(db: Db, tk: Ticket, d: Decision): Db
    requires 0 <= d.memberId < |db.members| && d.sequence >= 0 && d.qualificationRef >= 0
  {
    var m := d.memberId;
    var row := db.members[m];
    db.(
      attempts := db.attempts + [NewAttempt(row, db.now, tk.scope, d)],
      workflows := if row.candidate < |db.workflows|
        then db.workflows[row.candidate := db.workflows[row.candidate].(status := InProgress, currentResume := Some(row.resume))]
        else db.workflows,
      members := Allocate(db.members, m),
      items := Update(db.items, SettleItem(m)),
      changes := db.changes + TouchedScopes(db.members, row.candidate, |db.scopes|))
  }

  /** One turn of the decision loop; None when an assignment is refused because its application is
      closed. */
  function ApplyOne(db: Db, tk: Ticket, d: Decision): (r: Option<Db>)
    ensures r.Some? ==> r.value == db.(attempts := r.value.attempts, workflows := r.value.workflows,
      members := r.value.members, items := r.value.items, changes := r.value.changes)
    ensures r.Some? ==> |r.value.members| == |db.members| && |r.value.items| == |db.items|
  {
    if tk.mode == Simulate then Some(db)
    else if d.action == Wait then Some(db.(items := Update(db.items, WaitItem(d.memberId, tk.task))))
    else if !(0 <= d.memberId < |db.members| && d.sequence >= 0 && d.qualificationRef >= 0) then None
    else if db.members[d.memberId].resume in db.closed then None
    else Some(AssignMember(db, tk, d))
  }

  /** The decision loop. */
  function ApplyDecisions(db: Db, tk: Ticket, ds: seq<Decision>): (r: Option<Db>)
    ensures r.Some? ==> r.value == db.(attempts := r.value.attempts, workflows := r.value.workflows,
      members := r.value.members, items := r.value.items, changes := r.value.changes)
    ensures r.Some? ==> |r.value.members| == |db.members| && |r.value.items| == |db.items|
  {
    if ds == [] then Some(db)
    else
      match ApplyDecisions(db, tk, ds[..|ds| - 1])
      case None => None
      case Some(db) => ApplyOne(db, tk, ds[|ds| - 1])
  }

  function MaxSequence(ds: seq<Decision>): int {
    if ds == [] then 0
    else
      var rest := MaxSequence(ds[..|ds| - 1]);
      var d := ds[|ds| - 1];
      if d.action == Assign && d.sequence > rest then d.sequence else rest
  }

  function Advance(s: Scope, top: int): Scope {
    if top > 0 then s.(nextSequence := if top + 1 > s.nextSequence then top + 1 else s.nextSequence, revision := s.revision + 1)
    else s
  }

  function ReturnItem(task: nat): Item -> Item {
    (i: Item) => if i.task == Some(task) && i.status == ItemLeased then i.(status := ItemPending, task := None) else i
  }

  function ObserveItem(task: nat, revision: nat): Item -> Item {
    (i: Item) => if i.task == Some(task) && i.status == ItemWaiting then i.(observed := revision) else i
  }

  /** Everything after the decision loop. */
  function Settle(db: Db, tk: Ticket, top: int): Db
    requires tk.scope < |db.scopes| && tk.task < |db.tasks| && (tk.task, tk.generation) in db.plans
  {
    var key := (tk.task, tk.generation);
    var db := if tk.mode == Simulate then db.(items := Update(db.items, ReturnItem(tk.task))) else db;
    var db := db.(scopes := db.scopes[tk.scope := Advance(db.scopes[tk.scope], if tk.mode == Simulate then 0 else top)]);
    var db := db.(items := Update(db.items, ObserveItem(tk.task, Revision(db, tk.scope))));
    var db := db.(plans := db.plans[key := db.plans[key].(status := if tk.mode == Simulate then Simulated else Committed)]);
    Complete(db, tk)
  }

  datatype CommitResult = CommitDone | CommitFailed(failure: Failure)

  function Commit(db: Db, tk: Ticket, q: Request, decisions: seq<Decision>, authorized: bool): (Db, CommitResult)
    requires q.snapshot.at >= 0
  {
    if !LeaseHeld(db, tk) then (db, CommitFailed(LeaseLost))
    else if !authorized then (db, CommitFailed(Denied))
    else if db.now > q.snapshot.at + SNAPSHOT_AGE then (db, CommitFailed(SnapshotStale))
    else if !Buildable(db, tk) then (db, CommitFailed(OtherFailure))
    else if Canonical(Build(db, tk, q.snapshot.at, Revision(db, tk.scope))) != q.hash then (db, CommitFailed(SnapshotStale))
    else if (tk.task, tk.generation) !in db.plans then (db, CommitFailed(OtherFailure))
    else
      match ApplyDecisions(db, tk, decisions)
      case None => (db, CommitFailed(OtherFailure))
      case Some(applied) => (Settle(applied, tk, MaxSequence(decisions)), CommitDone)
  }

  // ----- failure -----

  function FailItem(task: nat, status: ItemStatus): Item -> Item {
    (i: Item) => if i.task == Some(task) && i.status == ItemLeased then i.(status := status) else i
  }

  function DropPlans(plans: map<(nat, nat), PlanRow>, keys: set<(nat, nat)>, status: PlanStatus): map<(nat, nat), PlanRow> {
    map k | k in plans :: if k in keys && plans[k].status == Proposed then plans[k].(status := status) else plans[k]
  }

  /** finishAllocationFailure. */
  function FinishFailure(db: Db, tk: Ticket, failure: Failure): Db {
    if !LeaseHeld(db, tk) then db
    else
      var again := failure == SnapshotStale && tk.generation < MAX_GENERATION;
      var t := db.tasks[tk.task];
      var db := db.(
        tasks := db.tasks[tk.task := t.(
          status := if again then TaskPending else TaskFailed,
          generation := if again then tk.generation + 1 else tk.generation, workerToken := 0)],
        plans := DropPlans(db.plans, {(tk.task, tk.generation)}, if failure == SnapshotStale then StalePlan else InvalidPlan),
        items := Update(db.items, FailItem(tk.task, if again then ItemPending else ItemFailed)));
      Release(db, tk.scope, tk.token)
  }

  // ----- the other writers -----

  function CancelItem(task: nat): Item -> Item {
    (i: Item) => if i.task == Some(task) && Active(i) then i.(status := ItemCancelled) else i
  }

  function PlanKeys(plans: map<(nat, nat), PlanRow>, tasks: set<nat>): set<(nat, nat)> { set k | k in plans && k.0 in tasks }

  function CancelTask(db: Db, t: nat): Db
    requires t < |db.tasks| && db.tasks[t].scope < |db.scopes|
  {
    if db.tasks[t].status == TaskCompleted then db
    else
      var task := db.tasks[t];
      var db := db.(
        tasks := db.tasks[t := task.(status := TaskCancelled)],
        plans := DropPlans(db.plans, PlanKeys(db.plans, {t}), CancelledPlan),
        items := Update(db.items, CancelItem(t)));
      Release(db, task.scope, task.workerToken)
  }

  function RetryTask(db: Db, t: nat, key: string, actor: Option<nat>): Db
    requires t < |db.tasks| && db.tasks[t].scope < |db.scopes|
  {
    var task := db.tasks[t];
    if task.status == TaskPending || task.status == TaskRunning || key == "" then db
    else CreateTask(db, task.scope, task.members, task.mode, Some(CallerKey(key)), actor).0
  }

  function PauseTask(sid: nat): Task -> Task {
    (t: Task) => if t.scope == sid && Live(t) then t.(status := TaskCancelled) else t
  }

  function PauseItem(tasks: seq<Task>, sid: nat): Item -> Item {
    (i: Item) =>
      if Active(i) && i.task.Some? && i.task.value < |tasks| && tasks[i.task.value].scope == sid
         && tasks[i.task.value].status == TaskCancelled
      then i.(status := ItemPending, task := None)
      else i
  }

  /** Pausing or resuming a scope; refused for a stale revision, or to resume under a live lease. */
  function SetPaused(db: Db, sid: nat, paused: bool, expectedRevision: nat): Db
    requires sid < |db.scopes|
  {
    var s := db.scopes[sid];
    if s.revision != expectedRevision then db
    else if !paused && s.leaseUntil.Some? && s.leaseUntil.value > db.now then db
    else
      var tasks := Update(db.tasks, PauseTask(sid));
      db.(
        scopes := db.scopes[sid := s.(paused := paused, epoch := s.epoch + 1, revision := s.revision + 1,
                                       leaseToken := 0, leaseUntil := None)],
        tasks := tasks,
        plans := DropPlans(db.plans,
          PlanKeys(db.plans, set t | 0 <= t < |tasks| && tasks[t].scope == sid && tasks[t].status == TaskCancelled), CancelledPlan),
        items := Update(db.items, PauseItem(tasks, sid)))
  }

  function SupersedeItem(m: nat, q: nat): Item -> Item {
    (i: Item) => if i.member == m && i.qualification != q && Unsettled(i) then i.(status := ItemCancelled) else i
  }

  function FindQualification(quals: seq<Qualification>, m: nat, revision: nat): Option<nat> {
    if quals == [] then None
    else if quals[|quals| - 1].member == m && quals[|quals| - 1].revision == revision then Some(|quals| - 1)
    else FindQualification(quals[..|quals| - 1], m, revision)
  }

  /** saveScreeningQualification for a member whose source file is verified. */
  function SaveQualification(db: Db, q: Qualification): Db {
    var found := FindQualification(db.quals, q.member, q.revision);
    var id := if found.Some? then found.value else |db.quals|;
    var db := if found.Some? then db else db.(quals := db.quals + [q]);
    var items := Update(db.items, SupersedeItem(q.member, id));
    db.(items := InsertItem(items, id, q.member, None))
  }
}
