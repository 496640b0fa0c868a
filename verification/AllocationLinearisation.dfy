/** Asynchronous compute-then-commit refines one atomic step. The abstract state is the business
    tables alone; its allocation step plans and assigns at once, in closed form. */
module AllocationLinearisation {
  import opened Orders
  import opened AllocationTypes
  import opened AllocationPolicy
  import opened AllocationCanonical
  import opened AllocationBatching
  import opened AllocationStore
  import opened AllocationProtocol
  import opened AllocationCommit
  import opened AllocationInvariants
  import opened AllocationSafety
  import opened AllocationLedger

  // ----- the abstract state -----

  function BareScope(): Scope -> Scope { (s: Scope) => Scope(false, 0, 0, s.nextSequence, 0, None) }

  /** The business tables; tasks, items, plans, leases, clocks and the change log are blank. */
  function View(db: Db): Db {
    Db(0, 1, Update(db.scopes, BareScope()), [], [], map[], db.members, db.quals, db.workflows, db.attempts,
       db.closed, db.demands, db.policyRevision, [])
  }

  function Batch(sid: nat, ids: seq<nat>): Ticket { Ticket(sid, 0, 0, 0, Execute, ids) }

  /** The last pick for a member of the candidate. */
  function PickOf(members: seq<MemberRow>, picks: seq<Decision>, candidate: nat): (r: Option<Decision>)
    ensures r.Some? ==> 0 <= r.value.memberId < |members| && members[r.value.memberId].candidate == candidate && r.value in picks
  {
    if picks == [] then None
    else
      var d := picks[|picks| - 1];
      if 0 <= d.memberId < |members| && members[d.memberId].candidate == candidate then Some(d)
      else PickOf(members, picks[..|picks| - 1], candidate)
  }

  /** A picked membership becomes allocated; the candidate's active memberships of other resumes close. */
  function AllocatedRow(members: seq<MemberRow>, picks: seq<Decision>, n: nat): MemberRow
    requires n < |members|
  {
    var row := members[n];
    match PickOf(members, picks, row.candidate)
    case None => row
    case Some(d) =>
      if d.memberId == n then row.(status := MemberAllocated, revision := row.revision + 1)
      else if row.resume != members[d.memberId].resume && ActiveMembership(row)
      then row.(status := MemberClosed, revision := row.revision + 1)
      else row
  }

  function AllocatedWorkflow(workflows: seq<Workflow>, members: seq<MemberRow>, picks: seq<Decision>, c: nat): Workflow
    requires c < |workflows|
  {
    match PickOf(members, picks, c)
    case None => workflows[c]
    case Some(d) => workflows[c].(status := InProgress, currentResume := Some(members[d.memberId].resume))
  }

  /** All picks carried out at once. */
  function Placed(db: Db, now: nat, scope: nat, picks: seq<Decision>): Db
    requires scope < |db.scopes|
    requires forall d | d in picks :: 0 <= d.memberId < |db.members| && d.sequence >= 0 && d.qualificationRef >= 0
  {
    db.(
      members := seq(|db.members|, n requires 0 <= n < |db.members| => AllocatedRow(db.members, picks, n)),
      workflows := seq(|db.workflows|, c requires 0 <= c < |db.workflows| =>
        AllocatedWorkflow(db.workflows, db.members, picks, c)),
      attempts := db.attempts + NewAttempts(db.(now := now), scope, picks),
      scopes := db.scopes[scope := db.scopes[scope].(nextSequence := db.scopes[scope].nextSequence + |picks|)])
  }

  ghost function PlannedNow(b: Db, sid: nat, ids: seq<nat>, at: nat): seq<Decision>
    requires Buildable(b, Batch(sid, ids))
  {
    Picks(Plan(Build(b, Batch(sid, ids), at, 0)))
  }

  // ----- the loop equals the closed form -----

  lemma {:induction false} PickOfOther(members: seq<MemberRow>, picks: seq<Decision>, candidate: nat)
    requires forall d | d in picks && 0 <= d.memberId < |members| :: members[d.memberId].candidate != candidate
    ensures PickOf(members, picks, candidate) == None
  {
    if picks != [] {
      PickOfOther(members, picks[..|picks| - 1], candidate);
    }
  }

  lemma PickOfSnoc(members: seq<MemberRow>, picks: seq<Decision>, d: Decision, candidate: nat)
    ensures PickOf(members, picks + [d], candidate)
            == if 0 <= d.memberId < |members| && members[d.memberId].candidate == candidate then Some(d)
               else PickOf(members, picks, candidate)
  {
    assert (picks + [d])[..|picks|] == picks;
  }

  lemma FreshCandidate(db: Db, ds: seq<Decision>, d: Decision)
    requires Executable(db, ds + [d])
    ensures 0 <= d.memberId < |db.members| && d.sequence >= 0 && d.qualificationRef >= 0
    ensures PickOf(db.members, Picks(ds), db.members[d.memberId].candidate) == None
  {
    hide PickOf, Picks;
    var all := ds + [d];
    assert all[|ds|] == d && d in all;
    PicksAreAssigns(ds);
    forall e | e in Picks(ds) && 0 <= e.memberId < |db.members|
      ensures db.members[e.memberId].candidate != db.members[d.memberId].candidate
    {
      var i :| 0 <= i < |ds| && ds[i] == e;
      assert all[i] == e;
    }
    PickOfOther(db.members, Picks(ds), db.members[d.memberId].candidate);
  }

  /** Members and workflows after the loop. */
  ghost predicate LoopDone(db: Db, picks: seq<Decision>, next: Db) {
    && |next.members| == |db.members| && |next.workflows| == |db.workflows|
    && (forall n | 0 <= n < |db.members| :: next.members[n] == AllocatedRow(db.members, picks, n))
    && (forall c | 0 <= c < |db.workflows| :: next.workflows[c] == AllocatedWorkflow(db.workflows, db.members, picks, c))
  }

  lemma AssignExtends(db: Db, mid: Db, tk: Ticket, picks: seq<Decision>, d: Decision)
    requires LoopDone(db, picks, mid) && RowsOk(db)
    requires 0 <= d.memberId < |db.members| && d.sequence >= 0 && d.qualificationRef >= 0
    requires PickOf(db.members, picks, db.members[d.memberId].candidate) == None
    ensures LoopDone(db, picks + [d], AssignMember(mid, tk, d))
  {
    hide PickOf, Update, SettleItem, TouchedScopes, NewAttempt;
    var next := AssignMember(mid, tk, d);
    var m := d.memberId;
    assert mid.members[m] == db.members[m];
    forall n | 0 <= n < |db.members| ensures next.members[n] == AllocatedRow(db.members, picks + [d], n) {
      PickOfSnoc(db.members, picks, d, db.members[n].candidate);
      assert mid.members[n] == AllocatedRow(db.members, picks, n);
    }
    forall c | 0 <= c < |db.workflows|
      ensures next.workflows[c] == AllocatedWorkflow(db.workflows, db.members, picks + [d], c)
    {
      PickOfSnoc(db.members, picks, d, c);
      assert mid.workflows[c] == AllocatedWorkflow(db.workflows, db.members, picks, c);
    }
  }

  lemma {:induction false} LoopPlaces(db: Db, tk: Ticket, ds: seq<Decision>)
    requires RowsOk(db) && tk.mode == Execute && Executable(db, ds) && ApplyDecisions(db, tk, ds).Some?
    ensures LoopDone(db, Picks(ds), ApplyDecisions(db, tk, ds).value)
  {
    hide RowsOk, Executable, LoopDone, AssignMember, Update, WaitItem, PickOf;
    if ds == [] {
      NothingPlaced(db);
    } else {
      var n := |ds| - 1;
      var rest, d := ds[..n], ds[n];
      assert ds == rest + [d];
      ExecutablePrefix(db, ds);
      LoopPlaces(db, tk, rest);
      PicksSnoc(rest, d);
      FreshCandidate(db, rest, d);
      var mid := ApplyDecisions(db, tk, rest).value;
      if d.action == Wait {
        assert Picks(ds) == Picks(rest);
        ItemsAside(db, Picks(rest), mid, Update(mid.items, WaitItem(d.memberId, tk.task)));
      } else {
        AssignExtends(db, mid, tk, Picks(rest), d);
      }
    }
  }

  lemma NothingPlaced(db: Db)
    ensures LoopDone(db, [], db)
  {}

  lemma ItemsAside(db: Db, picks: seq<Decision>, mid: Db, items: seq<Item>)
    requires LoopDone(db, picks, mid)
    ensures LoopDone(db, picks, mid.(items := items))
  {}

  // ----- what is planned depends on the business tables only -----

  lemma {:induction false} MembersSeenAlike(db: Db, sid: nat, at: nat, ids: seq<nat>, n: nat)
    requires n <= |db.members| && sid < |db.demands|
    ensures SnapshotMembers(View(db), sid, at, ids, n) == SnapshotMembers(db, sid, at, ids, n)
  {
    hide SnapshotMember, Valid, View;
    ViewRows(db);
    if n > 0 {
      MembersSeenAlike(db, sid, at, ids, n - 1);
      MemberSeenAlike(db, sid, at, n - 1);
    }
  }

  lemma ViewRows(db: Db)
    ensures View(db).members == db.members && View(db).demands == db.demands && View(db).attempts == db.attempts
    ensures |View(db).scopes| == |db.scopes|
  {}

  lemma DemandSeenAlike(db: Db, sid: nat, at: nat, row: DemandRow)
    ensures SnapshotDemand(View(db), sid, at)(row) == SnapshotDemand(db, sid, at)(row)
  {
    assert Supplied(View(db), sid, row.demandId, at) == Supplied(db, sid, row.demandId, at);
  }

  lemma MemberSeenAlike(db: Db, sid: nat, at: nat, m: nat)
    requires m < |db.members| && sid < |db.demands|
    ensures Valid(View(db), m) == Valid(db, m)
    ensures Valid(db, m) ==> SnapshotMember(View(db), sid, at, m) == SnapshotMember(db, sid, at, m)
  {
    hide Latest, CountedFor;
    assert Valid(View(db), m) == Valid(db, m);
    CountedAlike(db, sid, db.members[m].candidate, at, db.demands[sid]);
  }

  lemma {:induction false} CountedAlike(db: Db, sid: nat, candidate: nat, at: nat, rows: seq<DemandRow>)
    ensures CountedFor(View(db), sid, candidate, at, rows) == CountedFor(db, sid, candidate, at, rows)
  {
    if rows != [] {
      CountedAlike(db, sid, candidate, at, rows[..|rows| - 1]);
    }
  }

  lemma PlannedAlike(db: Db, tk: Ticket, at: nat, revision: nat)
    requires Buildable(db, tk)
    ensures Buildable(View(db), Batch(tk.scope, tk.members))
    ensures PlannedNow(View(db), tk.scope, tk.members, at) == Picks(Plan(Build(db, tk, at, revision)))
  {
    hide Valid, SnapshotMembers, Supplied, LastSequence, Run, SortBy, Picks, SupplyOf, LastOf;
    var a, b := Build(View(db), Batch(tk.scope, tk.members), at, 0), Build(db, tk, at, revision);
    MembersSeenAlike(db, tk.scope, at, tk.members, |db.members|);
    forall i | 0 <= i < |b.demands| ensures a.demands[i] == b.demands[i] {
      DemandSeenAlike(db, tk.scope, at, db.demands[tk.scope][i]);
    }
    assert a.demands == b.demands;
    assert a.members == b.members && Opening(a) == Opening(b);
  }

  // ----- the commit as one atomic step -----

  ghost predicate AllocatedAtomically(db: Db, next: Db, tk: Ticket, at: nat) {
    && tk.scope < |db.scopes| && Buildable(View(db), Batch(tk.scope, tk.members))
    && var picks := PlannedNow(View(db), tk.scope, tk.members, at);
    && (forall d | d in picks :: 0 <= d.memberId < |db.members| && d.sequence >= 0 && d.qualificationRef >= 0)
    && View(next) == Placed(View(db), db.now, tk.scope, picks)
  }

  /** A successful commit of an execution is exactly the atomic allocation of the batch in the
      state it commits in: same picks, same rows, next sequence moved past the picks. */
  lemma CommitIsAtomicAllocation(db: Db, tk: Ticket, q: Request, ds: seq<Decision>, authorized: bool)
    requires Good(db) && TicketOk(db, tk) && RequestOk(db, tk, q) && ds == Plan(q.snapshot) && tk.mode == Execute
    requires Commit(db, tk, q, ds, authorized).1.CommitDone?
    ensures AllocatedAtomically(db, Commit(db, tk, q, ds, authorized).0, tk, q.snapshot.at)
    ensures PlannedNow(View(db), tk.scope, tk.members, q.snapshot.at) == Picks(ds)
  {
    hide RowsOk, TasksOk, ItemsOk, SequencesOk, Plan, Build, Canonical, WellKeyed, Executable, LeasedCovered, ApplyDecisions;
    hide Picks, Numbered, Revision, Buildable, MaxSequence, LoopDone, PickOf, NewAttempts;
    CommitPlansCurrentState(db, tk, q, ds);
    PlannedAlike(db, tk, q.snapshot.at, Revision(db, tk.scope));
    PicksAreExecutable(db, ds);
    LoopPlaces(db, tk, ds);
    ApplyAttempts(db, tk, ds);
    PlanFollowsLineup(q.snapshot);
    var applied := ApplyDecisions(db, tk, ds).value;
    ScopeIsLive(db, tk);
    NextSequenceAdvances(applied, tk, ds);
    SettledView(applied, tk, ds);
    PlacedView(db, applied, tk, Picks(ds), Advanced(applied, tk, ds).scopes[tk.scope]);
  }

  lemma ScopeIsLive(db: Db, tk: Ticket)
    requires SequencesOk(db) && tk.scope < |db.scopes|
    ensures db.scopes[tk.scope].nextSequence >= 1
  {}

  lemma SettledView(db: Db, tk: Ticket, ds: seq<Decision>)
    requires tk.scope < |db.scopes| && tk.task < |db.tasks| && (tk.task, tk.generation) in db.plans && tk.mode == Execute
    ensures View(Settle(db, tk, MaxSequence(ds))) == View(Advanced(db, tk, ds))
  {
    hide MaxSequence, ObserveItem, Revision;
    assert View(Settle(db, tk, MaxSequence(ds))).scopes == View(Advanced(db, tk, ds)).scopes;
  }

  lemma PlacedView(db: Db, applied: Db, tk: Ticket, picks: seq<Decision>, scope: Scope)
    requires tk.scope < |db.scopes| && LoopDone(db, picks, applied)
    requires forall d | d in picks :: 0 <= d.memberId < |db.members| && d.sequence >= 0 && d.qualificationRef >= 0
    requires applied == db.(attempts := applied.attempts, workflows := applied.workflows,
               members := applied.members, items := applied.items, changes := applied.changes)
    requires applied.attempts == db.attempts + NewAttempts(db, tk.scope, picks)
    requires scope.nextSequence == db.scopes[tk.scope].nextSequence + |picks|
    ensures View(applied.(scopes := db.scopes[tk.scope := scope])) == Placed(View(db), db.now, tk.scope, picks)
  {
    hide AllocatedRow, AllocatedWorkflow;
    var v := View(db);
    var placed := Placed(v, db.now, tk.scope, picks);
    assert NewAttempts(v.(now := db.now), tk.scope, picks) == NewAttempts(db, tk.scope, picks);
    assert placed.members == applied.members;
    assert placed.workflows == applied.workflows;
    assert Update(db.scopes[tk.scope := scope], BareScope()) == placed.scopes;
  }

  // ----- who is assigned, and to what -----

  /** The pick goes to a receiving demand of the scope all of whose required tags the member's
      newest qualification supports. */
  ghost predicate GoesToOpenDemand(db: Db, sid: nat, d: Decision) {
    && sid < |db.demands| && 0 <= d.memberId && 0 <= d.qualificationRef < |db.quals|
    && Latest(db.quals, d.memberId) == Some(d.qualificationRef)
    && exists row :: row in db.demands[sid] && Answers(row, d, db.quals[d.qualificationRef].tags)
  }

  ghost predicate Answers(row: DemandRow, d: Decision, tags: seq<Tag>) {
    && row.demandId == d.demandId && row.department == d.departmentRef && row.reception.Receiving?
    && forall c | c in row.required :: Holds(TagTable(tags), c)
  }

  /** The snapshot member and demand behind a pick. */
  lemma PickBehind(s: Snapshot, d: Decision) returns (m: Member, e: Demand)
    requires s.nextSequence >= 0 && d in Picks(Plan(s))
    ensures m in s.members && m.memberId == d.memberId && m.qualificationRef == d.qualificationRef
    ensures e in s.demands && e.demandId == d.demandId && e.departmentRef == d.departmentRef && e.reception.Receiving?
    ensures forall c | c in e.required :: Holds(TagTable(m.tags), c)
  {
    hide SortBy, Picks, Run, Numbered, Holds, TagTable;
    PicksAreAssigns(Plan(s));
    PlanFollowsLineup(s);
    SameElements(Lineup(s), s.members);
    var i :| 0 <= i < |Plan(s)| && Plan(s)[i] == d;
    m := Lineup(s)[i];
    assert m in Lineup(s);
    e := RunPickTargets(Lineup(s), s.demands, Opening(s), i);
  }

  /** Every pick is for a member of the task that is pending on its current resume and whose
      candidate has no effective attempt, and goes to a demand that is receiving and whose required
      tags the member's newest qualification supports. */
  lemma PicksAreEligible(db: Db, tk: Ticket, at: nat, revision: nat, d: Decision)
    requires RowsOk(db) && Buildable(db, tk) && d in Picks(Plan(Build(db, tk, at, revision)))
    ensures 0 <= d.memberId < |db.members| && d.memberId in tk.members && Valid(db, d.memberId)
    ensures !Assigned(db, db.members[d.memberId].candidate) && db.members[d.memberId].status == PendingAllocation
    ensures GoesToOpenDemand(db, tk.scope, d)
  {
    hide SnapshotMembers, Picks, Plan, Assigned, OnCurrentResume, Supplied, LastSequence, Latest, CountedFor, Holds, TagTable;
    var s := Build(db, tk, at, revision);
    var m, e := PickBehind(s, d);
    SnapshotMembersListed(db, tk.scope, at, tk.members, |db.members|);
    LatestIsQualification(db.quals, d.memberId);
    assert m == SnapshotMember(db, tk.scope, at, m.memberId);
    var j :| 0 <= j < |s.demands| && s.demands[j] == e;
    var row := db.demands[tk.scope][j];
    assert e == SnapshotDemand(db, tk.scope, at)(row);
    assert row in db.demands[tk.scope] && Answers(row, d, db.quals[d.qualificationRef].tags);
  }

  lemma {:induction false} RunPickTargets(ms: seq<Member>, demands: seq<Demand>, t: Tally, i: nat) returns (e: Demand)
    requires i < |ms| && Run(ms, demands, t).0[i].action == Assign
    ensures var d := Run(ms, demands, t).0[i];
            && e in demands && e.demandId == d.demandId && e.departmentRef == d.departmentRef && e.reception.Receiving?
            && forall c | c in e.required :: Holds(TagTable(ms[i].tags), c)
  {
    hide InOrder, Absorb, IsChoice;
    if i == 0 {
      DecideTargets(ms[0], demands, t);
      e :| e in demands && Feasible(ms[0], e) && Decide(ms[0], demands, t) == Assignment(ms[0], e, t);
    } else {
      e := RunPickTargets(ms[1..], demands, Absorb(ms[0], Decide(ms[0], demands, t), t), i - 1);
    }
  }

  ghost predicate OneEffectiveEach(attempts: seq<Attempt>) {
    forall a, b | 0 <= a < b < |attempts| && Effective(attempts[a]) && Effective(attempts[b]) ::
      attempts[a].candidate != attempts[b].candidate
  }

  /** The atomic allocation never gives a candidate a second effective attempt. */
  lemma AllocationKeepsOneEffective(db: Db, tk: Ticket, at: nat, revision: nat)
    requires RowsOk(db) && Buildable(db, tk) && OneEffectiveEach(db.attempts)
    requires Executable(db, Plan(Build(db, tk, at, revision)))
    requires forall d | d in Picks(Plan(Build(db, tk, at, revision))) ::
               0 <= d.memberId < |db.members| && d.sequence >= 0 && d.qualificationRef >= 0
    ensures OneEffectiveEach(db.attempts + NewAttempts(db, tk.scope, Picks(Plan(Build(db, tk, at, revision)))))
  {
    hide RowsOk, Build, Plan, Picks, Valid, Buildable;
    var ds := Plan(Build(db, tk, at, revision));
    var picks := Picks(ds);
    var n := |db.attempts|;
    var all := db.attempts + NewAttempts(db, tk.scope, picks);
    forall a, b | 0 <= a < b < |all| && Effective(all[a]) && Effective(all[b]) ensures all[a].candidate != all[b].candidate {
      if n <= b {
        var d := picks[b - n];
        assert d in picks && all[b].candidate == db.members[d.memberId].candidate;
        PicksAreEligible(db, tk, at, revision, d);
        if n <= a {
          PicksApart(db, ds, a - n, b - n);
        } else {
          assert all[a] == db.attempts[a];
        }
      }
    }
  }

  lemma PicksApart(db: Db, ds: seq<Decision>, i: nat, j: nat)
    requires Executable(db, ds) && i < j < |Picks(ds)|
    ensures 0 <= Picks(ds)[i].memberId < |db.members| && 0 <= Picks(ds)[j].memberId < |db.members|
    ensures db.members[Picks(ds)[i].memberId].candidate != db.members[Picks(ds)[j].memberId].candidate
  {
    var k, l := PicksOrdered(ds, i, j);
    assert ds[k] in ds && ds[l] in ds;
  }

  lemma {:induction false} PicksOrdered(ds: seq<Decision>, i: nat, j: nat) returns (k: nat, l: nat)
    requires i < j < |Picks(ds)|
    ensures k < l < |ds| && ds[k] == Picks(ds)[i] && ds[l] == Picks(ds)[j]
  {
    if ds[0].action == Assign {
      if i == 0 {
        PicksAreAssigns(ds[1..]);
        assert Picks(ds)[j] in Picks(ds[1..]);
        var n :| 0 <= n < |ds[1..]| && ds[1..][n] == Picks(ds)[j];
        k, l := 0, n + 1;
      } else {
        k, l := PicksOrdered(ds[1..], i - 1, j - 1);
        k, l := k + 1, l + 1;
      }
    } else {
      k, l := PicksOrdered(ds[1..], i, j);
      k, l := k + 1, l + 1;
    }
  }

  // ----- forward simulation -----

  /** The steps of the abstract machine. An allocation at the instant now reads the supply window
      ending at the instant at, which is at most a minute old. */
  datatype AtomicAct =
    | Stutter
    | Screened(qualification: Qualification)
    | Outside
    | Restating(members: seq<nat>)
    | Allocation(scope: nat, batch: seq<nat>, at: nat, now: nat)

  ghost predicate OutsideEdit(b: Db, c: Db) {
    && c == b.(scopes := c.scopes, members := c.members, workflows := c.workflows, attempts := c.attempts, closed := c.closed,
               demands := c.demands, policyRevision := c.policyRevision)
    && MembersKept(b.members, c.members) && AttemptsKept(b.attempts, c.attempts) && |b.workflows| <= |c.workflows|
    && |b.scopes| <= |c.scopes| && c.scopes[..|b.scopes|] == b.scopes
    && (forall s | |b.scopes| <= s < |c.scopes| :: c.scopes[s] == BareScope()(NEW_SCOPE))
  }

  ghost predicate AllocationStep(b: Db, c: Db, sid: nat, ids: seq<nat>, at: nat, now: nat) {
    && sid < |b.scopes| && Buildable(b, Batch(sid, ids)) && at <= now <= at + SNAPSHOT_AGE
    && var picks := PlannedNow(b, sid, ids, at);
    && (forall d | d in picks :: 0 <= d.memberId < |b.members| && d.sequence >= 0 && d.qualificationRef >= 0)
    && c == Placed(b, now, sid, picks)
  }

  ghost predicate AtomicStep(b: Db, act: AtomicAct, c: Db) {
    match act
    case Stutter => c == b
    case Screened(q) => c == b.(quals := b.quals + [q])
    case Outside => OutsideEdit(b, c)
    case Restating(ids) => c == b.(members := Clean(b, ids).members)
    case Allocation(sid, ids, at, now) => AllocationStep(b, c, sid, ids, at, now)
  }

  lemma SameView(a: Db, b: Db)
    requires b == a.(now := b.now, nextToken := b.nextToken, scopes := b.scopes, tasks := b.tasks, items := b.items,
                     plans := b.plans, changes := b.changes)
    requires |b.scopes| == |a.scopes|
    requires forall s | 0 <= s < |a.scopes| :: b.scopes[s].nextSequence == a.scopes[s].nextSequence
    ensures View(b) == View(a)
  {
    assert Update(b.scopes, BareScope()) == Update(a.scopes, BareScope());
  }

  lemma ClaimView(db: Db, sid: nat)
    requires sid < |db.scopes|
    ensures View(Claim(db, sid).0) == View(db)
  {
    hide Recover, Wake, NextBatch, CreateTask, Grant, FirstPending, View;
    var r := Recover(db, sid);
    RecoverShape(db, sid);
    SameView(db, r);
    var paused := r.scopes[sid].paused;
    var first := FirstPending(r.tasks, sid, paused);
    if first.Some? {
      GrantView(r, sid, first.value);
    } else if !paused {
      var w := Wake(r, sid);
      WakeShape(r, sid);
      SameView(r, w);
      var ids := NextBatch(w, sid);
      if ids != [] {
        var c := CreateTask(w, sid, ids, Execute, None, None);
        SameView(w, c.0);
        if c.1.Created? {
          GrantView(c.0, sid, c.1.task);
        }
      }
    }
  }

  lemma GrantView(db: Db, sid: nat, t: nat)
    requires sid < |db.scopes| && t < |db.tasks|
    ensures View(Grant(db, sid, t).0) == View(db)
  {
    hide View, Update, LeaseItem;
    SameView(db, Grant(db, sid, t).0);
  }

  lemma CleanView(db: Db, ids: seq<nat>)
    ensures View(Clean(db, ids)) == View(db).(members := Clean(View(db), ids).members)
  {
    hide CleanChanges, Update, Valid;
    var v := View(db);
    forall m | 0 <= m < |db.members|
      ensures Restated(v, ids, m) == Restated(db, ids, m)
    {
      assert Valid(v, m) == Valid(db, m) by { ValidAlike(db, m); }
    }
    assert Clean(v, ids).members == Clean(db, ids).members;
  }

  lemma ValidAlike(db: Db, m: nat)
    requires m < |db.members|
    ensures Valid(View(db), m) == Valid(db, m)
  {}

  lemma CompleteView(db: Db, tk: Ticket)
    requires tk.scope < |db.scopes| && tk.task < |db.tasks|
    ensures View(Complete(db, tk)) == View(db)
  {
    hide View;
    SameView(db, Complete(db, tk));
  }

  lemma ProcessAct(db: Db, tk: Ticket, pin: nat, authorized: bool) returns (act: AtomicAct)
    ensures AtomicStep(View(db), act, View(Process(db, tk, pin, authorized).0))
    ensures act.Stutter? || act == Restating(tk.members)
  {
    hide View, Clean, Build, Canonical, Revision, Complete, CleanBlocked, Buildable;
    act := Stutter;
    if LeaseHeld(db, tk) && authorized && Buildable(db, tk) && !(tk.mode == Execute && CleanBlocked(db, tk.members)) {
      if tk.mode == Execute {
        act := Restating(tk.members);
        CleanView(db, tk.members);
        CleanShape(db, tk.members);
      }
      CompleteView(if tk.mode == Execute then Clean(db, tk.members) else db, tk);
    }
  }

  lemma CommitAct(db: Db, tk: Ticket, q: Request, ds: seq<Decision>, authorized: bool) returns (act: AtomicAct)
    requires Good(db) && TicketOk(db, tk) && RequestOk(db, tk, q) && ds == Plan(q.snapshot)
    ensures AtomicStep(View(db), act, View(Commit(db, tk, q, ds, authorized).0))
    ensures act == if Commit(db, tk, q, ds, authorized).1.CommitDone? && tk.mode == Execute
                     then Allocation(tk.scope, tk.members, q.snapshot.at, db.now) else Stutter
  {
    hide RowsOk, TasksOk, ItemsOk, SequencesOk, Plan, Build, Canonical, WellKeyed, LeasedCovered, ApplyDecisions, Revision;
    hide Buildable, MaxSequence, View, Settle, Placed;
    act := Stutter;
    if Commit(db, tk, q, ds, authorized).1.CommitDone? {
      if tk.mode == Execute {
        act := Allocation(tk.scope, tk.members, q.snapshot.at, db.now);
        CommitIsAtomicAllocation(db, tk, q, ds, authorized);
        ViewRows(db);
      } else {
        SimulationAppliesNothing(db, tk, ds);
        SimulatedView(db, tk, MaxSequence(ds));
      }
    }
  }

  lemma SimulatedView(db: Db, tk: Ticket, top: int)
    requires tk.scope < |db.scopes| && tk.task < |db.tasks| && (tk.task, tk.generation) in db.plans && tk.mode == Simulate
    ensures View(Settle(db, tk, top)) == View(db)
  {
    hide View, Update, ReturnItem, ObserveItem, Revision;
    SameView(db, Settle(db, tk, top));
  }

  lemma ScreenView(db: Db, q: Qualification)
    ensures View(SaveQualification(db, q)) == View(db) || View(SaveQualification(db, q)) == View(db).(quals := db.quals + [q])
  {
    hide Update, SupersedeItem, InsertItem, FindQualification;
  }

  lemma EditView(a: Db, b: Db)
    requires BusinessEdit(a, b)
    ensures OutsideEdit(View(a), View(b))
  {
    hide MembersKept, AttemptsKept, RowsOk, ItemsOnlyCancelled, EditLogged;
    assert forall s | 0 <= s < |a.scopes| :: b.scopes[s] == b.scopes[..|a.scopes|][s];
    assert View(b).scopes[..|a.scopes|] == View(a).scopes;
  }

  /** Every step of the protocol is one step of the abstract machine; it is an allocation exactly
      when an execution commits, and then in the state in which it commits. */
  lemma StepRefines(s: Sys, step: Step) returns (act: AtomicAct)
    requires Enabled(s, step) && Inv(s)
    ensures act.Allocation? ==> step.Conclude? && act.scope == s.workers[step.worker].ticket.scope
    ensures (act.Outside? ==> step.Edit?) && (act.Screened? ==> step.Screen?)
    ensures AtomicStep(View(s.db), act, View(Next(s, step).db))
    ensures act.Allocation? <==> CommitsExecution(s, step)
  {
    hide RowsOk, TasksOk, ItemsOk, SequencesOk, View, CreateTask, CancelTask, SetPaused, SaveQualification, OutsideEdit, AllocationStep;
    hide BusinessEdit, LeaseFree, HasLiveTask, ClaimableItem, Claim, Process, Accepts, Commit, FinishFailure, TicketOk, RequestOk, Plan;
    hide DistinctCodes, MembersInScope, Clean;
    var db, next := s.db, Next(s, step).db;
    act := Stutter;
    match step
    case Submit(_, _, _, _, _) => SameView(db, next);
    case Cancel(t) => CancelView(db, t);
    case Retry(_, _, _) => SameView(db, next);
    case Pause(sid, paused, expected) => PauseView(db, sid, paused, expected);
    case Screen(q) =>
      ScreenView(db, q);
      QualsSeen(db);
      if View(next) != View(db) {
        act := Screened(q);
      }
    case Edit(b) =>
      EditView(db, b);
      act := Outside;
    case Tick(now) => SameView(db, next);
    case TakeWork(_, sid) => ClaimView(db, sid);
    case Prepare(w, pin, authorized) => act := ProcessAct(db, s.workers[w].ticket, pin, authorized);
    case Answer(_, _, _) => SameView(db, next);
    case Conclude(w, authorized) =>
      var x := s.workers[w];
      assert WorkerOk(db, x);
      act := CommitAct(db, x.ticket, x.request, x.decisions, authorized);
    case Interrupt(_, _) =>
    case Abandon(w) => FailureView(db, s.workers[w].ticket, s.workers[w].failure);
    case Crash(_) =>
  }

  ghost predicate CommitsExecution(s: Sys, step: Step)
    requires Enabled(s, step)
  {
    && step.Conclude?
    && var x := s.workers[step.worker];
       x.ticket.mode == Execute && Commit(s.db, x.ticket, x.request, x.decisions, step.authorized).1.CommitDone?
  }

  lemma QualsSeen(db: Db)
    ensures View(db).quals == db.quals
  {}

  lemma CancelView(db: Db, t: nat)
    requires t < |db.tasks| && db.tasks[t].scope < |db.scopes|
    ensures View(CancelTask(db, t)) == View(db)
  {
    hide View, Update, CancelItem, DropPlans, PlanKeys;
    SameView(db, CancelTask(db, t));
  }

  lemma PauseView(db: Db, sid: nat, paused: bool, expected: nat)
    requires sid < |db.scopes|
    ensures View(SetPaused(db, sid, paused, expected)) == View(db)
  {
    hide View, Update, PauseItem, PauseTask, DropPlans, PlanKeys;
    SameView(db, SetPaused(db, sid, paused, expected));
  }

  lemma FailureView(db: Db, tk: Ticket, failure: Failure)
    ensures View(FinishFailure(db, tk, failure)) == View(db)
  {
    hide View, Update, FailItem, DropPlans;
    SameView(db, FinishFailure(db, tk, failure));
  }

  /** Hence every run of the protocol is, step by step, a run of the abstract machine. */
  lemma {:induction false} RunRefines(s: Sys, steps: seq<Step>) returns (acts: seq<AtomicAct>, states: seq<Db>)
    requires Inv(s) && Runs(s, steps)
    ensures |acts| == |steps| && |states| == |steps| + 1
    ensures states[0] == View(s.db) && states[|steps|] == View(After(s, steps).db)
    ensures forall i | 0 <= i < |steps| :: AtomicStep(states[i], acts[i], states[i + 1])
    decreases |steps|
  {
    hide Inv, Enabled, Next, View, AtomicStep;
    if steps == [] {
      acts, states := [], [View(s.db)];
    } else {
      var act := StepRefines(s, steps[0]);
      StepKeepsInv(s, steps[0]);
      var rest, tail := RunRefines(Next(s, steps[0]), steps[1..]);
      acts, states := [act] + rest, [View(s.db)] + tail;
      forall i | 0 <= i < |steps| ensures AtomicStep(states[i], acts[i], states[i + 1]) {
        if i > 0 {
          assert AtomicStep(tail[i - 1], rest[i - 1], tail[i]);
        }
      }
    }
  }

  // ----- what a commit assigns, in every reachable state -----

  /** Every assignment a commit makes is for a member of the task that is pending on its current
      resume without an effective attempt at that very step, and goes to a receiving demand whose
      required tags its newest qualification supports. */
  lemma CommittedAssignmentIsEligible(s: Sys, step: Step, d: Decision)
    requires Enabled(s, step) && step.Conclude? && d in Picks(s.workers[step.worker].decisions)
    requires Inv(s) && CommitsExecution(s, step)
    ensures var tk := s.workers[step.worker].ticket;
            && 0 <= d.memberId < |s.db.members| && d.memberId in tk.members && Valid(s.db, d.memberId)
            && !Assigned(s.db, s.db.members[d.memberId].candidate) && GoesToOpenDemand(s.db, tk.scope, d)
  {
    hide RowsOk, TasksOk, ItemsOk, SequencesOk, Plan, Build, Valid, GoesToOpenDemand, Assigned, TicketOk, RequestOk, Picks;
    hide Commit, NewAttempts;
    var x := s.workers[step.worker];
    assert WorkerOk(s.db, x);
    CommittedRecords(s.db, x.ticket, x.request, x.decisions, step.authorized,
                     Commit(s.db, x.ticket, x.request, x.decisions, step.authorized).0);
    PicksAreEligible(s.db, x.ticket, x.request.snapshot.at, Revision(s.db, x.ticket.scope), d);
  }

  /** If every candidate has at most one effective attempt, a commit leaves it so. */
  lemma CommitKeepsOneEffective(s: Sys, step: Step)
    requires Inv(s) && Enabled(s, step) && CommitsExecution(s, step) && OneEffectiveEach(s.db.attempts)
    ensures OneEffectiveEach(Next(s, step).db.attempts)
  {
    hide RowsOk, TasksOk, ItemsOk, SequencesOk, Plan, Build, TicketOk, RequestOk, Picks, Commit, NewAttempts, OneEffectiveEach;
    var x := s.workers[step.worker];
    assert WorkerOk(s.db, x);
    CommittedRecords(s.db, x.ticket, x.request, x.decisions, step.authorized,
                     Commit(s.db, x.ticket, x.request, x.decisions, step.authorized).0);
    PlanExecutable(s.db, x.ticket, x.request.snapshot.at, Revision(s.db, x.ticket.scope));
    AllocationKeepsOneEffective(s.db, x.ticket, x.request.snapshot.at, Revision(s.db, x.ticket.scope));
  }
}
