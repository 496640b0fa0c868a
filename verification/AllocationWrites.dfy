/** When the transactions of the engine go through and what they then write, said on the stored rows. */
module AllocationWrites {
  import opened Orders
  import opened AllocationTypes
  import opened AllocationPolicy
  import opened AllocationCanonical
  import opened AllocationStore
  import opened AllocationProtocol
  import opened AllocationCommit
  import opened AllocationInvariants
  import opened AllocationSafety
  import opened AllocationRows

  // ----- creating a task -----

  predicate LastWith(tasks: seq<Task>, key: Key, t: int) {
    0 <= t < |tasks| && tasks[t].key == key && forall u | t < u < |tasks| :: tasks[u].key != key
  }

  lemma {:induction false} KeyOnRows(tasks: seq<Task>, key: Key)
    ensures FindKey(tasks, key).Some? ==> LastWith(tasks, key, FindKey(tasks, key).value)
    ensures FindKey(tasks, key).None? ==> forall t | 0 <= t < |tasks| :: tasks[t].key != key
  {
    if tasks != [] {
      KeyOnRows(tasks[..|tasks| - 1], key);
      assert forall t | 0 <= t < |tasks| - 1 :: tasks[..|tasks| - 1][t] == tasks[t];
    }
  }

  /** The same request as the one the task was made for. */
  predicate MadeFor(t: Task, sid: nat, ids: seq<nat>, mode: Mode, actor: Option<nat>) {
    t.scope == sid && t.members == ids && t.mode == mode && t.createdBy == actor
  }

  predicate Creatable(db: Db, sid: nat, ids: seq<nat>, mode: Mode)
    requires sid < |db.scopes|
  {
    (db.scopes[sid].paused ==> mode == Simulate) && 1 <= |ids| <= 100
  }

  /** No execution is created for a paused scope, and no task for no or for more than a hundred members. A
      known key answers with its task if the request is the same, and is refused otherwise. A new key creates
      a pending task of the first generation; a simulation touches no work. */
  lemma CreateOnRows(db: Db, sid: nat, ids: seq<nat>, mode: Mode, key: Option<Key>, actor: Option<nat>)
    requires sid < |db.scopes|
    ensures var (next, r) := CreateTask(db, sid, ids, mode, key, actor);
            var asked := if key.Some? then key.value else TokenKey(db.nextToken);
            if !Creatable(db, sid, ids, mode) then next == db && r == Refused
            else if exists t :: LastWith(db.tasks, asked, t)
            then exists t :: LastWith(db.tasks, asked, t) && r == if MadeFor(db.tasks[t], sid, ids, mode, actor) then Existing(t) else Refused
            else
              && r == Created(|db.tasks|) && next.tasks == db.tasks + [Task(sid, mode, TaskPending, 1, asked, ids, actor, 0)]
              && next == db.(nextToken := if key.Some? then db.nextToken else db.nextToken + 1, tasks := next.tasks, items := next.items)
              && (mode == Simulate ==> next.items == db.items)
  {
    hide InsertItems, FindKey, Update, AttachItem, LastWith;
    var asked := if key.Some? then key.value else TokenKey(db.nextToken);
    KeyOnRows(db.tasks, asked);
    NoneWith(db.tasks, asked);
  }

  lemma NoneWith(tasks: seq<Task>, key: Key)
    ensures (forall t | 0 <= t < |tasks| :: tasks[t].key != key) ==> !(exists t :: LastWith(tasks, key, t))
  {}

  /** The member's newest qualification. */
  predicate NewestOf(quals: seq<Qualification>, m: nat, q: int) {
    0 <= q < |quals| && quals[q].member == m && forall n | q < n < |quals| :: quals[n].member != m
  }

  lemma LatestOnRows(quals: seq<Qualification>, m: nat)
    ensures Latest(quals, m).Some? ==> NewestOf(quals, m, Latest(quals, m).value)
    ensures Latest(quals, m).None? ==> forall q | 0 <= q < |quals| :: quals[q].member != m
  {
    LatestIsQualification(quals, m);
  }

  predicate Busy(items: seq<Item>, q: nat) {
    exists i :: 0 <= i < |items| && items[i].qualification == q && items[i].status in {ItemPending, ItemLeased}
  }

  lemma BusyMeans(items: seq<Item>, q: nat)
    ensures Busy(items, q) <==> HasActive(items, q)
  {
    ActiveOnRows(items, q);
  }

  /** New work follows the old: one pending item for the newest qualification of each of the members that
      has no active work for it. */
  lemma {:induction false} InsertedOnRows(items: seq<Item>, quals: seq<Qualification>, ids: seq<nat>, task: nat)
    ensures var r := InsertItems(items, quals, ids, task);
            && |items| <= |r| && r[..|items|] == items
            && (forall i | |items| <= i < |r| ::
                  r[i].member in ids && NewestOf(quals, r[i].member, r[i].qualification) && !Busy(items, r[i].qualification)
                  && r[i] == Item(r[i].member, r[i].qualification, Some(task), ItemPending, 0))
            && (forall i, j | |items| <= i < j < |r| :: r[i].qualification != r[j].qualification)
            && forall m: nat, q: nat | m in ids && NewestOf(quals, m, q) :: Busy(r, q)
  {
    hide NewestOf, HasActive, Busy;
    if ids != [] {
      var n := |ids| - 1;
      var m := ids[n];
      var rest := InsertItems(items, quals, ids[..n], task);
      InsertedOnRows(items, quals, ids[..n], task);
      assert ids == ids[..n] + [m];
      LatestOnRows(quals, m);
      OnlyNewest(quals, m);
      match Latest(quals, m) {
        case None =>
        case Some(q) =>
          BusyMeans(rest, q);
          BusyLonger(items, rest[|items|..], q);
          assert items + rest[|items|..] == rest;
          forall p | Busy(rest, p) ensures Busy(InsertItem(rest, q, m, Some(task)), p) {
            BusyLonger(rest, [Item(m, q, Some(task), ItemPending, 0)], p);
          }
          var one := [Item(m, q, Some(task), ItemPending, 0)];
          assert one[0].qualification == q && one[0].status == ItemPending;
          BusyLonger(rest, one, q);
          AllBusy(rest, |items|);
          var r := InsertItem(rest, q, m, Some(task));
          assert Busy(r, q);
          forall x: nat, p: nat | x in ids && NewestOf(quals, x, p) ensures Busy(r, p) {
            if x in ids[..n] {
              assert Busy(rest, p);
            } else {
              assert x == m && p == q;
            }
          }
      }
    }
  }

  lemma OnlyNewest(quals: seq<Qualification>, m: nat)
    ensures forall p, q | NewestOf(quals, m, p) && NewestOf(quals, m, q) :: p == q
    ensures (forall q | 0 <= q < |quals| :: quals[q].member != m) ==> forall q :: !NewestOf(quals, m, q)
  {}

  lemma BusyLonger(items: seq<Item>, more: seq<Item>, q: nat)
    ensures Busy(items, q) ==> Busy(items + more, q)
    ensures (exists i :: 0 <= i < |more| && more[i].qualification == q && more[i].status == ItemPending) ==> Busy(items + more, q)
  {
    var all := items + more;
    if i :| 0 <= i < |items| && items[i].qualification == q && items[i].status in {ItemPending, ItemLeased} {
      assert all[i] == items[i];
    }
    if i :| 0 <= i < |more| && more[i].qualification == q && more[i].status == ItemPending {
      assert all[|items| + i] == more[i];
    }
  }

  lemma AllBusy(items: seq<Item>, n: nat)
    ensures forall i | n <= i < |items| && items[i].status == ItemPending :: Busy(items, items[i].qualification)
  {}

  /** The work of a new execution: pending work of its members that belongs to no task is attached to it,
      other work stays, and missing work is added as above. */
  lemma CreatedWork(db: Db, sid: nat, ids: seq<nat>, key: Option<Key>, actor: Option<nat>)
    requires sid < |db.scopes| && CreateTask(db, sid, ids, Execute, key, actor).1.Created?
    ensures var next, t := CreateTask(db, sid, ids, Execute, key, actor).0, |db.tasks|;
            && |db.items| <= |next.items|
            && (forall i | 0 <= i < |db.items| :: next.items[i] ==
                  if db.items[i].member in ids && db.items[i].status == ItemPending && db.items[i].task == None
                  then db.items[i].(task := Some(t)) else db.items[i])
            && (forall i | |db.items| <= i < |next.items| ::
                  next.items[i].member in ids && NewestOf(db.quals, next.items[i].member, next.items[i].qualification)
                  && !Busy(db.items, next.items[i].qualification)
                  && next.items[i] == Item(next.items[i].member, next.items[i].qualification, Some(t), ItemPending, 0))
            && forall m: nat, q: nat | m in ids && NewestOf(db.quals, m, q) :: Busy(next.items, q)
  {
    hide InsertItems, FindKey, NewestOf, Busy;
    var t := |db.tasks|;
    var r := InsertItems(db.items, db.quals, ids, t);
    InsertedOnRows(db.items, db.quals, ids, t);
    forall i | 0 <= i < |db.items| ensures r[i] == db.items[i] {
      assert r[i] == r[..|db.items|][i];
    }
    forall q: nat | Busy(r, q) ensures Busy(Update(r, AttachItem(ids, t)), q) {
      BusyAttached(r, ids, t, q);
    }
  }

  lemma BusyAttached(items: seq<Item>, ids: seq<nat>, t: nat, q: nat)
    requires Busy(items, q)
    ensures Busy(Update(items, AttachItem(ids, t)), q)
  {
    var i :| 0 <= i < |items| && items[i].qualification == q && items[i].status in {ItemPending, ItemLeased};
    var r := Update(items, AttachItem(ids, t));
    assert r[i].qualification == q && r[i].status == items[i].status;
  }

  /** Retrying creates a task like the old one under the caller's key, unless the old one is unfinished or
      no key is given. */
  lemma RetryOnRows(db: Db, t: nat, key: string, actor: Option<nat>)
    requires t < |db.tasks| && db.tasks[t].scope < |db.scopes|
    ensures RetryTask(db, t, key, actor) ==
              if db.tasks[t].status in {TaskPending, TaskRunning} || key == "" then db
              else CreateTask(db, db.tasks[t].scope, db.tasks[t].members, db.tasks[t].mode, Some(CallerKey(key)), actor).0
  {
    hide CreateTask;
  }

  // ----- screening -----

  predicate Screened(quals: seq<Qualification>, m: nat, revision: nat, q: int) {
    0 <= q < |quals| && quals[q].member == m && quals[q].revision == revision
    && forall n | q < n < |quals| :: quals[n].member != m || quals[n].revision != revision
  }

  lemma {:induction false} ScreenedBefore(quals: seq<Qualification>, m: nat, revision: nat)
    ensures var f := FindQualification(quals, m, revision);
            && (f.Some? ==> Screened(quals, m, revision, f.value))
            && (f.None? ==> forall q | 0 <= q < |quals| :: quals[q].member != m || quals[q].revision != revision)
  {
    if quals != [] {
      ScreenedBefore(quals[..|quals| - 1], m, revision);
      assert forall q | 0 <= q < |quals| - 1 :: quals[..|quals| - 1][q] == quals[q];
    }
  }

  /** Saving a screening: a revision already screened keeps its row, another one gets a new row. The
      member's unsettled work for other qualifications is cancelled, and unless there is active work for this
      one, pending work without a task is added. Nothing else changes. */
  lemma ScreenOnRows(db: Db, q: Qualification) returns (id: nat)
    ensures if exists n :: Screened(db.quals, q.member, q.revision, n) then Screened(db.quals, q.member, q.revision, id) else id == |db.quals|
    ensures var next := SaveQualification(db, q);
            && next.quals == (if id < |db.quals| then db.quals else db.quals + [q])
            && next == db.(quals := next.quals, items := next.items)
            && |db.items| <= |next.items|
            && (forall i | 0 <= i < |db.items| :: next.items[i] ==
                  if db.items[i].member == q.member && db.items[i].qualification != id && db.items[i].status in {ItemPending, ItemLeased, ItemWaiting}
                  then db.items[i].(status := ItemCancelled) else db.items[i])
            && next.items[|db.items|..] == (if Busy(db.items, id) then [] else [Item(q.member, id, None, ItemPending, 0)])
  {
    hide FindQualification, Screened, HasActive;
    ScreenedBefore(db.quals, q.member, q.revision);
    var f := FindQualification(db.quals, q.member, q.revision);
    id := if f.Some? then f.value else |db.quals|;
    NotScreened(db.quals, q.member, q.revision);
    ScreenedIsRow(db.quals, q.member, q.revision, id);
    var items := Update(db.items, SupersedeItem(q.member, id));
    BusyMeans(items, id);
    SupersededBusy(db.items, q.member, id);
  }

  lemma NotScreened(quals: seq<Qualification>, m: nat, revision: nat)
    ensures (forall q | 0 <= q < |quals| :: quals[q].member != m || quals[q].revision != revision) ==> !(exists n :: Screened(quals, m, revision, n))
  {}

  lemma ScreenedIsRow(quals: seq<Qualification>, m: nat, revision: nat, q: nat)
    ensures Screened(quals, m, revision, q) ==> q < |quals|
  {}

  /** Active work for the qualification itself is not cancelled. */
  lemma SupersededBusy(items: seq<Item>, m: nat, id: nat)
    ensures Busy(Update(items, SupersedeItem(m, id)), id) <==> Busy(items, id)
  {
    var r := Update(items, SupersedeItem(m, id));
    if i :| 0 <= i < |items| && items[i].qualification == id && items[i].status in {ItemPending, ItemLeased} {
      assert r[i] == items[i];
    }
    if i :| 0 <= i < |r| && r[i].qualification == id && r[i].status in {ItemPending, ItemLeased} {
      assert r[i] == items[i];
    }
  }

  // ----- what is logged -----

  /** A change to a candidate's rows is logged for exactly the scopes in which the candidate has a
      membership. */
  lemma {:induction false} TouchedOnRows(members: seq<MemberRow>, candidate: nat, n: nat, sid: nat)
    ensures sid in TouchedScopes(members, candidate, n) <==>
              sid < n && exists m :: 0 <= m < |members| && members[m].candidate == candidate && members[m].scope == sid
  {
    if n > 0 {
      TouchedOnRows(members, candidate, n - 1, sid);
    }
  }

  /** Cleaning logs the scopes of the candidates it sets back, and an assignment those of its candidate. */
  lemma {:induction false} CleanLogs(db: Db, ids: seq<nat>, n: nat, sid: nat)
    requires n <= |db.members| && sid < |db.scopes|
    ensures sid in CleanChanges(db, ids, n) <==>
              exists m, o :: 0 <= m < n && 0 <= o < |db.members| && SetBack(db, ids, m) && MemberOf(db, o, db.members[m].candidate, sid)
  {
    hide Restated, SetBack;
    if n > 0 {
      CleanLogs(db, ids, n - 1, sid);
      TouchedOnRows(db.members, db.members[n - 1].candidate, |db.scopes|, sid);
      SetBackMeans(db, ids, n - 1);
      if o :| 0 <= o < |db.members| && db.members[o].candidate == db.members[n - 1].candidate && db.members[o].scope == sid {
        assert MemberOf(db, o, db.members[n - 1].candidate, sid);
      }
    }
  }

  predicate MemberOf(db: Db, o: nat, candidate: nat, sid: nat) {
    o < |db.members| && db.members[o].candidate == candidate && db.members[o].scope == sid
  }

  /** A member that is not valid and has to be screened again. */
  predicate SetBack(db: Db, ids: seq<nat>, m: nat) { m < |db.members| && m in ids && !Valid(db, m) && MustBeScreenedAgain(db, m) }

  lemma SetBackMeans(db: Db, ids: seq<nat>, m: nat)
    requires m < |db.members|
    ensures SetBack(db, ids, m) <==> Restated(db, ids, m)
  {
    hide Valid, Assigned;
    AssignedOnRows(db, db.members[m].candidate);
  }

  // ----- processing -----

  /** The snapshot can be read: the task's members are of its scope, which has at most 200 demands. */
  predicate Readable(db: Db, tk: Ticket) {
    && tk.scope < |db.scopes| && tk.scope < |db.demands| && |db.demands[tk.scope]| <= 200
    && forall m | m in tk.members && m < |db.members| :: db.members[m].scope == tk.scope
  }

  /** Some member that has to be screened again has a closed application. */
  predicate Stuck(db: Db, ids: seq<nat>) {
    exists m :: 0 <= m < |db.members| && SetBack(db, ids, m) && db.members[m].resume in db.closed
  }

  /** Under a held lease: without permission, or with members or demands that cannot be read or cleaned, the
      first transaction changes nothing. Otherwise an execution cleans its members; without a valid member the
      task is completed and the lease given up; with one the request carries the present moment and revision. */
  lemma ProcessOnRows(db: Db, tk: Ticket, pin: nat, authorized: bool)
    requires MayWrite(db, tk)
    ensures var (next, r) := Process(db, tk, pin, authorized);
            if !authorized then next == db && r == ProcessFailed(Denied)
            else if !Readable(db, tk) || (tk.mode == Execute && Stuck(db, tk.members)) then next == db && r == ProcessFailed(OtherFailure)
            else
              var clean := if tk.mode == Execute then Clean(db, tk.members) else db;
              if forall m | 0 <= m < |db.members| && m in tk.members :: !Valid(db, m) then
                && r == NothingEligible
                && next == clean.(tasks := db.tasks[tk.task := db.tasks[tk.task].(status := TaskCompleted)],
                                  scopes := db.scopes[tk.scope := db.scopes[tk.scope].(leaseToken := 0, leaseUntil := None)])
              else
                && next == clean && r.Computing? && r.request.task == tk.task && r.request.generation == tk.generation && r.request.pin == pin
                && r.request.snapshot.at == db.now && r.request.hash == Canonical(r.request.snapshot)
                && r.request.snapshot.scopeRevision == db.scopes[tk.scope].revision + LastChange(clean.changes, tk.scope)
                && r.request.snapshot.taskId == tk.task && r.request.snapshot.generation == tk.generation
                && forall m | 0 <= m < |db.members| :: (exists x :: x in r.request.snapshot.members && x.memberId == m) <==> m in tk.members && Valid(db, m)
  {
    hide Canonical, LastChange, Valid, SnapshotMember, SetBack, Restated, SnapshotDemand;
    StuckMeans(db, tk.members);
    if authorized && Readable(db, tk) && !(tk.mode == Execute && Stuck(db, tk.members)) {
      var clean := if tk.mode == Execute then Clean(db, tk.members) else db;
      CleanShape(db, tk.members);
      SnapshotMembersListed(db, tk.scope, db.now, tk.members, |db.members|);
      var s := Build(db, tk, db.now, Revision(clean, tk.scope));
      ListedAre(db, tk, s.members);
    }
  }

  lemma ListedAre(db: Db, tk: Ticket, r: seq<Member>)
    requires Buildable(db, tk) && r == SnapshotMembers(db, tk.scope, db.now, tk.members, |db.members|)
    ensures forall m | 0 <= m < |db.members| :: (exists x :: x in r && x.memberId == m) <==> m in tk.members && Valid(db, m)
    ensures r == [] <==> forall m | 0 <= m < |db.members| && m in tk.members :: !Valid(db, m)
  {
    hide Valid, SnapshotMember, SnapshotMembers;
    SnapshotMembersListed(db, tk.scope, db.now, tk.members, |db.members|);
    forall m | 0 <= m < |db.members| && m in tk.members && Valid(db, m) ensures exists x :: x in r && x.memberId == m {
      MemberIdKept(db, tk.scope, db.now, m);
      assert SnapshotMember(db, tk.scope, db.now, m) in r;
    }
    if r != [] {
      assert r[0] in r;
    }
  }

  lemma StuckMeans(db: Db, ids: seq<nat>)
    ensures Stuck(db, ids) <==> CleanBlocked(db, ids)
  {
    hide SetBack, Restated;
    forall m | 0 <= m < |db.members| ensures SetBack(db, ids, m) <==> Restated(db, ids, m) {
      SetBackMeans(db, ids, m);
    }
  }

  // ----- committing -----

  /** A decision that cannot be carried out: an assignment of somebody unknown, or one whose application is
      closed. */
  predicate Undoable(db: Db, d: Decision) {
    d.action == Assign
    && (!(0 <= d.memberId < |db.members| && d.sequence >= 0 && d.qualificationRef >= 0) || db.members[d.memberId].resume in db.closed)
  }

  /** The loop stops exactly at such a decision; a simulation never stops. */
  lemma {:induction false} LoopOnRows(db: Db, tk: Ticket, ds: seq<Decision>)
    ensures ApplyDecisions(db, tk, ds).None? <==> tk.mode == Execute && exists d :: d in ds && Undoable(db, d)
    ensures ApplyDecisions(db, tk, ds).Some? ==> SameResumes(db, ApplyDecisions(db, tk, ds).value)
  {
    hide SettleItem, WaitItem, TouchedScopes, Allocate;
    if ds != [] {
      var n := |ds| - 1;
      LoopOnRows(db, tk, ds[..n]);
      assert ds == ds[..n] + [ds[n]];
      if ApplyDecisions(db, tk, ds[..n]).Some? {
        OneOnRows(db, ApplyDecisions(db, tk, ds[..n]).value, tk, ds[n]);
      }
    }
  }

  predicate SameResumes(a: Db, b: Db) {
    |b.members| == |a.members| && b.closed == a.closed && forall m | 0 <= m < |a.members| :: b.members[m].resume == a.members[m].resume
  }

  lemma OneOnRows(db: Db, mid: Db, tk: Ticket, d: Decision)
    requires SameResumes(db, mid)
    ensures ApplyOne(mid, tk, d).None? <==> tk.mode == Execute && Undoable(db, d)
    ensures ApplyOne(mid, tk, d).Some? ==> SameResumes(db, ApplyOne(mid, tk, d).value)
  {
    hide SettleItem, WaitItem, TouchedScopes, Update;
  }

  /** Under a held lease the commit goes through exactly with permission, on a snapshot at most a minute
      old that still reads the same, with its plan recorded, and if every decision can be carried out. When
      it does not, nothing changes, and only an old or changed snapshot lets the task try again. */
  lemma CommitOnRows(db: Db, tk: Ticket, q: Request, ds: seq<Decision>, authorized: bool)
    requires MayWrite(db, tk) && q.snapshot.at >= 0
    ensures var (next, r) := Commit(db, tk, q, ds, authorized);
            var young := db.now <= q.snapshot.at + 60 * 1000000;
            if !authorized then next == db && r == CommitFailed(Denied)
            else if !young then next == db && r == CommitFailed(SnapshotStale)
            else if !Readable(db, tk) then next == db && r == CommitFailed(OtherFailure)
            else if Canonical(Build(db, tk, q.snapshot.at, db.scopes[tk.scope].revision + LastChange(db.changes, tk.scope))) != q.hash
            then next == db && r == CommitFailed(SnapshotStale)
            else if (tk.task, tk.generation) !in db.plans || (tk.mode == Execute && exists d :: d in ds && Undoable(db, d))
            then next == db && r == CommitFailed(OtherFailure)
            else r == CommitDone
  {
    hide Canonical, Build, Settle, ApplyDecisions, LastChange, Undoable;
    LoopOnRows(db, tk, ds);
  }

  /** What a commit writes besides what its decisions do to attempts, members, workflows and work: the task
      is completed, its plan final, the lease given up, and if somebody was assigned the scope's revision
      goes up by one. */
  lemma CommittedOnRows(db: Db, tk: Ticket, q: Request, ds: seq<Decision>, authorized: bool)
    requires MayWrite(db, tk) && q.snapshot.at >= 0 && Commit(db, tk, q, ds, authorized).1.CommitDone?
    ensures var next, s := Commit(db, tk, q, ds, authorized).0, db.scopes[tk.scope];
            && next.tasks == db.tasks[tk.task := db.tasks[tk.task].(status := TaskCompleted)]
            && (tk.task, tk.generation) in db.plans
            && next.plans == db.plans[(tk.task, tk.generation) :=
                 db.plans[(tk.task, tk.generation)].(status := if tk.mode == Simulate then Simulated else Committed)]
            && |next.scopes| == |db.scopes| && (forall k | 0 <= k < |db.scopes| && k != tk.scope :: next.scopes[k] == db.scopes[k])
            && next.scopes[tk.scope] == s.(leaseToken := 0, leaseUntil := None,
                 nextSequence := next.scopes[tk.scope].nextSequence, revision := next.scopes[tk.scope].revision)
            && (if tk.mode == Execute && exists d :: d in ds && d.action == Assign && d.sequence > 0
                then next.scopes[tk.scope].revision == s.revision + 1
                     && (forall d | d in ds && d.action == Assign :: d.sequence < next.scopes[tk.scope].nextSequence)
                     && s.nextSequence <= next.scopes[tk.scope].nextSequence
                else next.scopes[tk.scope].revision == s.revision && next.scopes[tk.scope].nextSequence == s.nextSequence)
            && next.now == db.now && next.nextToken == db.nextToken && next.quals == db.quals && next.demands == db.demands && next.closed == db.closed
            && (tk.mode == Simulate ==> next.attempts == db.attempts && next.members == db.members)
            && (tk.mode == Simulate ==> next.workflows == db.workflows && next.changes == db.changes)
  {
    hide Canonical, Build, ApplyDecisions, LastChange, Buildable, Update, ObserveItem, ReturnItem, MaxSequence;
    TopOnRows(ds);
    if tk.mode == Simulate {
      SimulationAppliesNothing(db, tk, ds);
    }
  }

  lemma {:induction false} TopOnRows(ds: seq<Decision>)
    ensures MaxSequence(ds) > 0 <==> exists d :: d in ds && d.action == Assign && d.sequence > 0
    ensures forall d | d in ds && d.action == Assign :: d.sequence <= MaxSequence(ds)
    ensures MaxSequence(ds) >= 0
  {
    if ds != [] {
      var n := |ds| - 1;
      TopOnRows(ds[..n]);
      assert ds == ds[..n] + [ds[n]];
    }
  }
}
