/** The batches a scope's executions commit one after the other, whatever happens in between, allocate
    as one loop over all of them would. */
module AllocationSeries {
  import opened Orders
  import opened AllocationTypes
  import opened AllocationPolicy
  import opened AllocationCanonical
  import opened AllocationBatching
  import opened AllocationStore
  import opened AllocationProtocol
  import opened AllocationCommit
  import opened AllocationInvariants
  import opened AllocationSafety
  import opened AllocationLedger
  import opened AllocationLinearisation

  // ----- the commits of a scope in a run -----

  ghost predicate CommitsIn(s: Sys, step: Step, sid: nat)
    requires Enabled(s, step)
  {
    step.Conclude? && s.workers[step.worker].ticket.scope == sid && CommitsExecution(s, step)
  }

  /** No business rows are edited from outside. */
  ghost predicate Undisturbed(steps: seq<Step>) { forall step | step in steps :: !step.Edit? }

  /** The snapshot a commit finds in the tables. */
  ghost function Found(db: Db, x: Worker): Snapshot
    requires x.Accepted?
  {
    if Buildable(db, x.ticket) && x.request.snapshot.at >= 0
    then Build(db, x.ticket, x.request.snapshot.at, Revision(db, x.ticket.scope)) else x.request.snapshot
  }

  /** All picks committed for the scope, in order. */
  ghost function SeriesPicks(s: Sys, steps: seq<Step>, sid: nat): seq<Decision>
    requires Runs(s, steps)
    decreases |steps|
  {
    if steps == [] then []
    else
      (if CommitsIn(s, steps[0], sid) then Picks(s.workers[steps[0].worker].decisions) else [])
      + SeriesPicks(Next(s, steps[0]), steps[1..], sid)
  }

  /** The members planned by these commits, in the order in which they were planned. */
  ghost function SeriesLine(s: Sys, steps: seq<Step>, sid: nat): seq<Member>
    requires Runs(s, steps)
    decreases |steps|
  {
    if steps == [] then []
    else
      (if CommitsIn(s, steps[0], sid) then Lineup(Found(s.db, s.workers[steps[0].worker])) else [])
      + SeriesLine(Next(s, steps[0]), steps[1..], sid)
  }

  /** The instant for which the next commit of the scope reads its quantities. */
  ghost function NextReading(s: Sys, steps: seq<Step>, sid: nat, finally: nat): int
    requires Runs(s, steps)
    decreases |steps|
  {
    if steps == [] then finally
    else if CommitsIn(s, steps[0], sid) then s.workers[steps[0].worker].request.snapshot.at
    else NextReading(Next(s, steps[0]), steps[1..], sid, finally)
  }

  /** Between one reading and the next no record of the scope enters or leaves the seven-day window. */
  ghost predicate SteadyWindow(s: Sys, steps: seq<Step>, sid: nat, finally: nat)
    requires Runs(s, steps)
    decreases |steps|
  {
    steps == []
    || (&& SteadyWindow(Next(s, steps[0]), steps[1..], sid, finally)
        && (CommitsIn(s, steps[0], sid) ==>
              && s.workers[steps[0].worker].request.snapshot.at >= 0
              && NextReading(Next(s, steps[0]), steps[1..], sid, finally) >= 0
              && WindowSteady(s.db, sid, s.workers[steps[0].worker].request.snapshot.at,
                              NextReading(Next(s, steps[0]), steps[1..], sid, finally))))
  }

  // ----- what the tables say about a scope's demands -----

  /** Read for the instant, the scope's demands are these, with the tally's quantities. */
  ghost predicate DemandsRead(db: Db, sid: nat, at: int, demands: seq<Demand>, t: Tally) {
    && at >= 0 && sid < |db.scopes| == |db.demands| && |db.demands[sid]| <= DEMAND_LIMIT
    && Each(SnapshotDemand(db, sid, at), db.demands[sid]) == Refreshed(demands, t)
    && db.scopes[sid].nextSequence == t.sequence
  }

  lemma ReadAlike(db: Db, sid: nat, at: int, demands: seq<Demand>, t: Tally)
    ensures DemandsRead(View(db), sid, at, demands, t) <==> DemandsRead(db, sid, at, demands, t)
  {
    hide SnapshotDemand, Refreshed;
    ViewRows(db);
    if at >= 0 && sid < |db.demands| {
      forall j | 0 <= j < |db.demands[sid]|
        ensures SnapshotDemand(View(db), sid, at)(db.demands[sid][j]) == SnapshotDemand(db, sid, at)(db.demands[sid][j])
      {
        DemandSeenAlike(db, sid, at, db.demands[sid][j]);
      }
      assert Each(SnapshotDemand(View(db), sid, at), db.demands[sid]) == Each(SnapshotDemand(db, sid, at), db.demands[sid]);
    }
  }

  /** Records of other scopes do not show. */
  lemma {:induction false} OthersUnseen(olds: seq<Attempt>, news: seq<Attempt>, sid: nat, c: nat)
    requires forall a | a in news :: a.target.Some? && a.target.value.scope != sid
    ensures LastSequence(olds + news, sid, c) == LastSequence(olds, sid, c)
  {
    if news == [] {
      assert olds + news == olds;
    } else {
      var n := |news| - 1;
      assert (olds + news)[..|olds + news| - 1] == olds + news[..n];
      assert news[n] in news && forall a | a in news[..n] :: a in news;
      OthersUnseen(olds, news[..n], sid, c);
    }
  }

  lemma OthersSupplyNothing(olds: seq<Attempt>, news: seq<Attempt>, sid: nat, c: nat, at: nat)
    requires forall a | a in news :: a.target.Some? && a.target.value.scope != sid
    ensures Suppliers(olds + news, sid, c, at) == Suppliers(olds, sid, c, at)
  {
    hide InWindow, Effective;
    SuppliersAppend(olds, news, sid, c, at);
    forall i | 0 <= i < |news| ensures !Supplies(news[i], sid, c, at) {
      assert news[i] in news;
    }
    assert Suppliers(news, sid, c, at) == {};
  }

  lemma ElsewhereUnseen(b: Db, c: Db, sid: nat, at: int, demands: seq<Demand>, t: Tally)
    requires DemandsRead(b, sid, at, demands, t)
    requires c.demands == b.demands && |c.scopes| == |b.scopes| && c.scopes[sid] == b.scopes[sid]
    requires |b.attempts| <= |c.attempts| && c.attempts[..|b.attempts|] == b.attempts
    requires forall a | a in c.attempts[|b.attempts|..] :: a.target.Some? && a.target.value.scope != sid
    ensures DemandsRead(c, sid, at, demands, t)
  {
    hide LastSequence, Suppliers, Refreshed;
    var olds, news := b.attempts, c.attempts[|b.attempts|..];
    assert c.attempts == olds + news;
    forall j | 0 <= j < |b.demands[sid]|
      ensures SnapshotDemand(c, sid, at)(b.demands[sid][j]) == SnapshotDemand(b, sid, at)(b.demands[sid][j])
    {
      OthersUnseen(olds, news, sid, b.demands[sid][j].demandId);
      OthersSupplyNothing(olds, news, sid, b.demands[sid][j].demandId, at);
    }
    assert Each(SnapshotDemand(c, sid, at), b.demands[sid]) == Each(SnapshotDemand(b, sid, at), b.demands[sid]);
  }

  /** Whatever is neither an outside edit nor an allocation in the scope leaves its demands as read. */
  lemma ReadKept(b: Db, act: AtomicAct, c: Db, sid: nat, at: int, demands: seq<Demand>, t: Tally)
    requires AtomicStep(b, act, c) && !act.Outside? && (act.Allocation? ==> act.scope != sid)
    requires DemandsRead(b, sid, at, demands, t)
    ensures DemandsRead(c, sid, at, demands, t)
  {
    hide PlannedNow, NewAttempts, Clean, Buildable, DemandsRead, AllocatedRow, AllocatedWorkflow, Each;
    ScopeKnown(b, sid, at, demands, t);
    if act.Allocation? {
      var picks := PlannedNow(b, act.scope, act.batch, act.at);
      var news := NewAttempts(b.(now := act.now), act.scope, picks);
      assert c.attempts[|b.attempts|..] == news;
      forall a | a in news ensures a.target.Some? && a.target.value.scope != sid {
        var i :| 0 <= i < |news| && news[i] == a;
        assert picks[i] in picks;
      }
    } else {
      assert c.attempts[|b.attempts|..] == [];
    }
    ElsewhereUnseen(b, c, sid, at, demands, t);
  }

  lemma ScopeKnown(db: Db, sid: nat, at: int, demands: seq<Demand>, t: Tally)
    requires DemandsRead(db, sid, at, demands, t)
    ensures sid < |db.scopes|
  {}

  lemma StepReads(s: Sys, step: Step, sid: nat, at: int, demands: seq<Demand>, t: Tally)
    requires Inv(s) && Enabled(s, step) && !step.Edit? && !CommitsIn(s, step, sid) && DemandsRead(s.db, sid, at, demands, t)
    ensures DemandsRead(Next(s, step).db, sid, at, demands, t)
  {
    hide Inv, Enabled, Next, View, AtomicStep, DemandsRead, CommitsExecution;
    var act := StepRefines(s, step);
    ReadAlike(s.db, sid, at, demands, t);
    ReadAlike(Next(s, step).db, sid, at, demands, t);
    ReadKept(View(s.db), act, View(Next(s, step).db), sid, at, demands, t);
  }

  // ----- one commit -----

  lemma RefreshedTwice(demands: seq<Demand>, t: Tally, u: Tally)
    ensures Refreshed(Refreshed(demands, t), u) == Refreshed(demands, u)
  {}

  /** A commit of the scope plans its line-up with the tally the demands were read with, and leaves
      them to be read with the tally the loop ends with. */
  lemma CommitContinues(db: Db, x: Worker, authorized: bool, next: Db, later: nat, demands: seq<Demand>, t: Tally)
    requires Good(db) && x.Accepted? && WorkerOk(db, x) && x.ticket.mode == Execute
    requires Commit(db, x.ticket, x.request, x.decisions, authorized) == (next, CommitDone)
    requires DistinctDemands(demands) && Covers(t, demands)
    requires DemandsRead(db, x.ticket.scope, x.request.snapshot.at, demands, t)
    requires WindowSteady(db, x.ticket.scope, x.request.snapshot.at, later)
    ensures var line := Lineup(Found(db, x));
            && Picks(x.decisions) == Picks(Run(line, demands, t).0)
            && DemandsRead(next, x.ticket.scope, later, demands, Run(line, demands, t).1)
  {
    hide RowsOk, TasksOk, ItemsOk, SequencesOk, TicketOk, RequestOk, Commit, Buildable, Build, Run, Picks, SortBy;
    hide SupplyOf, LastOf, Covers, DistinctDemands, WindowSteady, Revision, SnapshotDemand, Refreshed, NewAttempts, Numbered, Each;
    var tk, q := x.ticket, x.request;
    CommittedRecords(db, tk, q, x.decisions, authorized, next);
    RequestParts(db, tk, q);
    BuildReads(db, tk, q.snapshot.at, Revision(db, tk.scope));
    EmptyBuildable(db, next, tk);
    BuildReads(next, AllocationLinearisation.Batch(tk.scope, []), later, 0);
    RecountEqualsLoop(db, tk, q, x.decisions, authorized, next, AllocationLinearisation.Batch(tk.scope, []), later, 0);
    var s := Build(db, tk, q.snapshot.at, Revision(db, tk.scope));
    OpeningRefreshed(demands, t);
    RunRefreshed(Lineup(s), demands, t, t);
    RefreshedTwice(demands, t, Outcome(s).1);
  }

  lemma RequestParts(db: Db, tk: Ticket, q: Request)
    requires RequestOk(db, tk, q)
    ensures q.snapshot.at >= 0
  {}

  lemma BuildReads(db: Db, tk: Ticket, at: nat, revision: nat)
    requires Buildable(db, tk)
    ensures var s := Build(db, tk, at, revision);
            && s.demands == Each(SnapshotDemand(db, tk.scope, at), db.demands[tk.scope])
            && s.nextSequence == db.scopes[tk.scope].nextSequence && |db.demands[tk.scope]| <= DEMAND_LIMIT
  {
    hide SnapshotMembers, SnapshotDemand;
  }

  lemma EmptyBuildable(db: Db, next: Db, tk: Ticket)
    requires Buildable(db, tk) && next.demands == db.demands && |next.scopes| == |db.scopes|
    ensures Buildable(next, AllocationLinearisation.Batch(tk.scope, []))
  {}

  // ----- any run -----

  /** In any run without outside edits, with crashes, retries, pauses, cancellations and newly screened
      members at any moment: the picks committed for a scope are those of one loop over all the line-ups
      its commits planned, starting from the quantities read at first; and what is read in the end is
      what that loop ends with. */
  lemma {:induction false} SeriesIsOneRun(s: Sys, steps: seq<Step>, sid: nat, finally: nat, demands: seq<Demand>, t: Tally)
    requires Inv(s) && Runs(s, steps) && Undisturbed(steps) && SteadyWindow(s, steps, sid, finally)
    requires DistinctDemands(demands) && Covers(t, demands)
    requires DemandsRead(s.db, sid, NextReading(s, steps, sid, finally), demands, t)
    ensures SeriesPicks(s, steps, sid) == Picks(Run(SeriesLine(s, steps, sid), demands, t).0)
    ensures DemandsRead(After(s, steps).db, sid, finally, demands, Run(SeriesLine(s, steps, sid), demands, t).1)
    decreases |steps|
  {
    hide Inv, Enabled, Next, DemandsRead, DistinctDemands, Covers, CommitsExecution, Lineup, Found, Picks, Run, WindowSteady;
    if steps == [] {
      NothingRun(demands, t);
    } else {
      var n := Next(s, steps[0]);
      StepKeepsInv(s, steps[0]);
      if CommitsIn(s, steps[0], sid) {
        CommitOf(s, steps[0]);
        var x := s.workers[steps[0].worker];
        CommitContinues(s.db, x, steps[0].authorized, n.db, NextReading(n, steps[1..], sid, finally), demands, t);
        var line := Lineup(Found(s.db, x));
        RunCovers(line, demands, t);
        SeriesIsOneRun(n, steps[1..], sid, finally, demands, Run(line, demands, t).1);
        RunAppend(line, SeriesLine(n, steps[1..], sid), demands, t);
        PicksAppend(Run(line, demands, t).0, Run(SeriesLine(n, steps[1..], sid), demands, Run(line, demands, t).1).0);
      } else {
        StepReads(s, steps[0], sid, NextReading(s, steps, sid, finally), demands, t);
        SeriesIsOneRun(n, steps[1..], sid, finally, demands, t);
        assert SeriesLine(s, steps, sid) == SeriesLine(n, steps[1..], sid);
        assert SeriesPicks(s, steps, sid) == SeriesPicks(n, steps[1..], sid);
      }
    }
  }

  lemma NothingRun(demands: seq<Demand>, t: Tally)
    ensures Run([], demands, t) == ([], t) && Picks([]) == []
  {}

  lemma CommitOf(s: Sys, step: Step)
    requires Enabled(s, step) && CommitsExecution(s, step) && Inv(s)
    ensures step.Conclude? && step.worker in s.workers
    ensures var x := s.workers[step.worker];
            && Good(s.db) && x.Accepted? && WorkerOk(s.db, x) && x.ticket.mode == Execute && x.request.snapshot.at >= 0
            && Commit(s.db, x.ticket, x.request, x.decisions, step.authorized) == (Next(s, step).db, CommitDone)
  {
    hide RowsOk, TasksOk, ItemsOk, SequencesOk, Commit, TicketOk, RequestOk;
    assert WorkerOk(s.db, s.workers[step.worker]);
  }

  lemma {:induction false} PicksAppend(a: seq<Decision>, b: seq<Decision>)
    ensures Picks(a + b) == Picks(a) + Picks(b)
  {
    hide Picks;
    if a == [] {
      assert a + b == b;
      NothingRun([], Tally(map[], map[], 0));
    } else {
      assert a == [a[0]] + a[1..] && a + b == [a[0]] + (a[1..] + b);
      PicksCons(a[0], a[1..]);
      PicksCons(a[0], a[1..] + b);
      PicksAppend(a[1..], b);
    }
  }

  // ----- who is planned -----

  /** Neither business rows nor qualifications come from outside. */
  ghost predicate EngineOnly(steps: seq<Step>) { forall step | step in steps :: !step.Edit? && !step.Screen? }

  /** The members of all tasks committed for the scope. */
  ghost function SeriesIds(s: Sys, steps: seq<Step>, sid: nat): seq<nat>
    requires Runs(s, steps)
    decreases |steps|
  {
    if steps == [] then []
    else
      (if CommitsIn(s, steps[0], sid) then s.workers[steps[0].worker].ticket.members else [])
      + SeriesIds(Next(s, steps[0]), steps[1..], sid)
  }

  ghost predicate PickedMember(picks: seq<Decision>, m: int) { exists d :: d in picks && d.memberId == m }

  /** Exactly the picked members stop being valid, and the others' rows stay. */
  ghost predicate Passes(b: Db, c: Db, picks: seq<Decision>) {
    && |c.members| == |b.members| && c.quals == b.quals && c.demands == b.demands
    && forall m | 0 <= m < |b.members| ::
         && (Valid(c, m) <==> Valid(b, m) && !PickedMember(picks, m))
         && c.members[m].scope == b.members[m].scope
         && (Valid(c, m) ==> RowsSame(b, c, m))
  }

  ghost predicate RowsSame(b: Db, c: Db, m: nat) {
    && m < |b.members| && m < |c.members| && c.members[m] == b.members[m]
    && b.members[m].candidate < |b.workflows| && b.members[m].candidate < |c.workflows|
    && c.workflows[b.members[m].candidate] == b.workflows[b.members[m].candidate]
  }

  lemma RestatingPasses(b: Db, ids: seq<nat>)
    requires RowsOk(b)
    ensures Passes(b, b.(members := Clean(b, ids).members), [])
  {
    hide CleanItem, CleanChanges, Latest, Assigned, Update;
    var c := b.(members := Clean(b, ids).members);
    forall m | 0 <= m < |b.members|
      ensures (Valid(c, m) <==> Valid(b, m)) && c.members[m].scope == b.members[m].scope && (Valid(c, m) ==> RowsSame(b, c, m))
    {
      CandidateRow(b, m);
      assert Assigned(c, b.members[m].candidate) == Assigned(b, b.members[m].candidate) by { AssignedSame(b, c, b.members[m].candidate); }
    }
  }

  lemma AssignedSame(b: Db, c: Db, candidate: nat)
    requires c.attempts == b.attempts
    ensures Assigned(c, candidate) == Assigned(b, candidate)
  {}

  lemma CandidateRow(db: Db, m: nat)
    requires RowsOk(db) && m < |db.members|
    ensures db.members[m].candidate < |db.workflows|
  {}

  /** The candidate of a valid member is picked only through that member. */
  lemma PickedThroughOwn(b: Db, ids: seq<nat>, sid: nat, at: nat, m: nat, d: Decision)
    requires RowsOk(b) && Buildable(b, AllocationLinearisation.Batch(sid, ids)) && d in PlannedNow(b, sid, ids, at)
    requires m < |b.members| && Valid(b, m)
    ensures 0 <= d.memberId < |b.members| && d.memberId in ids && Valid(b, d.memberId)
    ensures b.members[d.memberId].candidate == b.members[m].candidate ==> d.memberId == m
  {
    hide Build, Plan, Picks, Latest, Assigned, OnCurrentResume;
    PicksAreEligible(b, AllocationLinearisation.Batch(sid, ids), at, 0, d);
    ActiveApart(b, m, d.memberId);
  }

  lemma ActiveApart(b: Db, m: nat, n: nat)
    requires RowsOk(b) && m < |b.members| && n < |b.members| && ActiveMembership(b.members[m]) && ActiveMembership(b.members[n])
    ensures b.members[m].candidate == b.members[n].candidate ==> m == n
  {}

  lemma AllocationPasses(b: Db, c: Db, sid: nat, ids: seq<nat>, at: nat, now: nat)
    requires RowsOk(b) && AllocationStep(b, c, sid, ids, at, now)
    ensures Passes(b, c, PlannedNow(b, sid, ids, at))
    ensures forall m, d | 0 <= m < |b.members| && Valid(c, m) && d in PlannedNow(b, sid, ids, at) ::
              b.members[d.memberId].candidate != b.members[m].candidate
  {
    hide PlannedNow, NewAttempts, Buildable, Valid, AllocatedRow, PickedMember, RowsSame, RowsOk, Placed;
    var picks := PlannedNow(b, sid, ids, at);
    PlacedShape(b, c, sid, ids, at, now);
    forall m | 0 <= m < |b.members|
      ensures (Valid(c, m) <==> Valid(b, m) && !PickedMember(picks, m)) && c.members[m].scope == b.members[m].scope
      ensures Valid(c, m) ==> RowsSame(b, c, m) && forall d | d in picks :: b.members[d.memberId].candidate != b.members[m].candidate
    {
      MemberPasses(b, c, sid, ids, at, now, m);
    }
  }

  lemma PlacedShape(b: Db, c: Db, sid: nat, ids: seq<nat>, at: nat, now: nat)
    requires AllocationStep(b, c, sid, ids, at, now)
    ensures |c.members| == |b.members| && |c.workflows| == |b.workflows| && c.quals == b.quals && c.demands == b.demands
    ensures forall d | d in PlannedNow(b, sid, ids, at) :: 0 <= d.memberId < |b.members|
  {
    hide PlannedNow, NewAttempts, Buildable, AllocatedRow, AllocatedWorkflow;
  }

  lemma MemberPasses(b: Db, c: Db, sid: nat, ids: seq<nat>, at: nat, now: nat, m: nat)
    requires RowsOk(b) && AllocationStep(b, c, sid, ids, at, now) && m < |b.members|
    ensures m < |c.members| && forall d | d in PlannedNow(b, sid, ids, at) :: 0 <= d.memberId < |b.members|
    ensures Valid(c, m) <==> Valid(b, m) && !PickedMember(PlannedNow(b, sid, ids, at), m)
    ensures c.members[m].scope == b.members[m].scope
    ensures Valid(c, m) ==>
              RowsSame(b, c, m) && forall d | d in PlannedNow(b, sid, ids, at) :: b.members[d.memberId].candidate != b.members[m].candidate
  {
    hide PlannedNow, NewAttempts, Buildable, Valid, PickedMember, RowsSame, RowsOk, PickOf, Assigned;
    var picks, x := PlannedNow(b, sid, ids, at), b.members[m].candidate;
    PlacedShape(b, c, sid, ids, at, now);
    CandidateRow(b, m);
    if d :| d in picks && b.members[d.memberId].candidate == x {
      PlacedAssigned(b, c, sid, ids, at, now, d);
      AssignedInvalid(c, m);
      if Valid(b, m) {
        PickedThroughOwn(b, ids, sid, at, m, d);
        assert PickedMember(picks, m) by { PickedBy(picks, d); }
      }
    } else {
      PickOfOther(b.members, picks, x);
      AssignedElsewhere(b, c, sid, ids, at, now, x);
      UnpickedSame(b, c, m);
      assert !PickedMember(picks, m) by { NotPickedBy(b, picks, m); }
    }
  }

  lemma PickedBy(picks: seq<Decision>, d: Decision)
    requires d in picks
    ensures PickedMember(picks, d.memberId)
  {}

  lemma NotPickedBy(b: Db, picks: seq<Decision>, m: nat)
    requires m < |b.members| && forall d | d in picks :: 0 <= d.memberId < |b.members| && b.members[d.memberId].candidate != b.members[m].candidate
    ensures !PickedMember(picks, m)
  {}

  lemma AssignedInvalid(db: Db, m: nat)
    requires m < |db.members| && Assigned(db, db.members[m].candidate)
    ensures !Valid(db, m)
  {
    hide Assigned;
  }

  /** With the same rows, a member is as valid as before. */
  lemma UnpickedSame(b: Db, c: Db, m: nat)
    requires m < |b.members| == |c.members| && |c.workflows| == |b.workflows| && c.quals == b.quals && b.members[m].candidate < |b.workflows|
    requires c.members[m] == b.members[m] && c.workflows[b.members[m].candidate] == b.workflows[b.members[m].candidate]
    requires Assigned(c, b.members[m].candidate) == Assigned(b, b.members[m].candidate)
    ensures (Valid(c, m) <==> Valid(b, m)) && RowsSame(b, c, m)
  {
    hide Latest, Assigned;
  }

  lemma PlacedAssigned(b: Db, c: Db, sid: nat, ids: seq<nat>, at: nat, now: nat, d: Decision)
    requires AllocationStep(b, c, sid, ids, at, now) && d in PlannedNow(b, sid, ids, at)
    ensures 0 <= d.memberId < |b.members| && Assigned(c, b.members[d.memberId].candidate)
  {
    hide PlannedNow, Buildable, AllocatedRow, AllocatedWorkflow;
    var picks := PlannedNow(b, sid, ids, at);
    var i :| 0 <= i < |picks| && picks[i] == d;
    assert c.attempts[|b.attempts| + i] == NewAttempt(b.members[d.memberId], now, sid, d);
  }

  lemma AssignedElsewhere(b: Db, c: Db, sid: nat, ids: seq<nat>, at: nat, now: nat, x: nat)
    requires AllocationStep(b, c, sid, ids, at, now)
    requires forall d | d in PlannedNow(b, sid, ids, at) :: 0 <= d.memberId < |b.members| && b.members[d.memberId].candidate != x
    ensures Assigned(c, x) == Assigned(b, x)
  {
    hide PlannedNow, Buildable, AllocatedRow, AllocatedWorkflow, Effective;
    var picks := PlannedNow(b, sid, ids, at);
    var n := |b.attempts|;
    forall a | n <= a < |c.attempts| ensures c.attempts[a].candidate != x {
      assert picks[a - n] in picks;
    }
    forall a | 0 <= a < n ensures c.attempts[a] == b.attempts[a] {}
  }

  // ----- how the planned members read -----

  lemma {:induction false} CountedSame(b: Db, c: Db, sid: nat, candidate: nat, at: nat, later: nat, rows: seq<DemandRow>)
    requires forall row | row in rows ::
               candidate in Supplied(b, sid, row.demandId, at) <==> candidate in Supplied(c, sid, row.demandId, later)
    ensures CountedFor(c, sid, candidate, later, rows) == CountedFor(b, sid, candidate, at, rows)
  {
    hide Supplied;
    if rows != [] {
      var n := |rows| - 1;
      assert rows[n] in rows && forall row | row in rows[..n] :: row in rows;
      CountedSame(b, c, sid, candidate, at, later, rows[..n]);
    }
  }

  lemma MemberReads(b: Db, c: Db, sid: nat, at: nat, later: nat, m: nat)
    requires RowsSame(b, c, m) && c.quals == b.quals && c.demands == b.demands && sid < |b.demands|
    requires Valid(b, m) && Valid(c, m)
    requires CountedFor(c, sid, b.members[m].candidate, later, b.demands[sid]) == CountedFor(b, sid, b.members[m].candidate, at, b.demands[sid])
    ensures SnapshotMember(c, sid, later, m) == SnapshotMember(b, sid, at, m)
  {
    hide Latest, CountedFor, Assigned;
  }

  /** Read for these instants, whoever stays valid in the scope looks the same. */
  ghost predicate ReadsOn(b: Db, at: int, c: Db, later: int, sid: nat) {
    && at >= 0 && later >= 0 && sid < |b.demands| && sid < |c.demands| && |c.members| == |b.members|
    && forall m | 0 <= m < |b.members| && Valid(b, m) && Valid(c, m) :: SnapshotMember(c, sid, later, m) == SnapshotMember(b, sid, at, m)
  }

  /** Steps other than commits of the scope. */
  lemma OthersReadOn(b: Db, act: AtomicAct, c: Db, sid: nat, at: nat) returns (picks: seq<Decision>)
    requires RowsOk(b) && AtomicStep(b, act, c) && !act.Outside? && !act.Screened? && sid < |b.demands|
    requires act.Allocation? ==> act.scope != sid
    ensures Passes(b, c, picks) && ReadsOn(b, at, c, at, sid)
    ensures forall d | d in picks :: 0 <= d.memberId < |b.members| && b.members[d.memberId].scope != sid
  {
    hide PlannedNow, Clean, RowsOk, Passes, ReadsOn, AllocationStep, SnapshotMember, Valid;
    match act {
      case Stutter =>
        picks := [];
        StutterPasses(b, sid, at);
      case Restating(ids) =>
        picks := [];
        RestatingPasses(b, ids);
        SameAttemptsRead(b, c, sid, at);
      case Allocation(other, ids, read, now) =>
        StepBuildable(b, c, other, ids, read, now);
        picks := PlannedNow(b, other, ids, read);
        AllocationPasses(b, c, other, ids, read, now);
        ElsewhereReads(b, c, other, ids, read, now, sid, at);
        forall d | d in picks ensures 0 <= d.memberId < |b.members| && b.members[d.memberId].scope != sid {
          PickInScope(b, other, ids, read, d);
        }
    }
  }

  lemma StepBuildable(b: Db, c: Db, sid: nat, ids: seq<nat>, at: nat, now: nat)
    requires AllocationStep(b, c, sid, ids, at, now)
    ensures Buildable(b, AllocationLinearisation.Batch(sid, ids))
  {
    hide PlannedNow, Placed, Buildable;
  }

  lemma PickInScope(b: Db, sid: nat, ids: seq<nat>, at: nat, d: Decision)
    requires RowsOk(b) && Buildable(b, AllocationLinearisation.Batch(sid, ids)) && d in PlannedNow(b, sid, ids, at)
    ensures 0 <= d.memberId < |b.members| && b.members[d.memberId].scope == sid && d.memberId in ids && Valid(b, d.memberId)
  {
    hide Build, Plan, Picks, Valid;
    PicksAreEligible(b, AllocationLinearisation.Batch(sid, ids), at, 0, d);
  }

  lemma StutterPasses(b: Db, sid: nat, at: nat)
    requires RowsOk(b) && sid < |b.demands|
    ensures Passes(b, b, []) && ReadsOn(b, at, b, at, sid)
  {
    hide SnapshotMember, Latest, Assigned;
  }

  lemma SameAttemptsRead(b: Db, c: Db, sid: nat, at: nat)
    requires Passes(b, c, []) && c.attempts == b.attempts && sid < |b.demands|
    ensures ReadsOn(b, at, c, at, sid)
  {
    hide SnapshotMember, Valid, RowsSame, CountedFor;
    forall m | 0 <= m < |b.members| && Valid(b, m) && Valid(c, m) ensures SnapshotMember(c, sid, at, m) == SnapshotMember(b, sid, at, m) {
      CountedSame(b, c, sid, b.members[m].candidate, at, at, b.demands[sid]);
      MemberReads(b, c, sid, at, at, m);
    }
  }

  lemma ElsewhereReads(b: Db, c: Db, other: nat, ids: seq<nat>, read: nat, now: nat, sid: nat, at: nat)
    requires AllocationStep(b, c, other, ids, read, now) && other != sid && sid < |b.demands|
    requires Passes(b, c, PlannedNow(b, other, ids, read))
    ensures ReadsOn(b, at, c, at, sid)
  {
    hide SnapshotMember, Valid, RowsSame, CountedFor, PlannedNow, NewAttempts, Buildable, AllocatedRow, AllocatedWorkflow, Suppliers;
    var news := NewAttempts(b.(now := now), other, PlannedNow(b, other, ids, read));
    forall a | a in news ensures a.target.Some? && a.target.value.scope != sid {
      var i :| 0 <= i < |news| && news[i] == a;
      assert PlannedNow(b, other, ids, read)[i] in PlannedNow(b, other, ids, read);
    }
    forall m | 0 <= m < |b.members| && Valid(b, m) && Valid(c, m) ensures SnapshotMember(c, sid, at, m) == SnapshotMember(b, sid, at, m) {
      forall row | row in b.demands[sid] ensures Supplied(c, sid, row.demandId, at) == Supplied(b, sid, row.demandId, at) {
        OthersSupplyNothing(b.attempts, news, sid, row.demandId, at);
      }
      CountedSame(b, c, sid, b.members[m].candidate, at, at, b.demands[sid]);
      MemberReads(b, c, sid, at, at, m);
    }
  }

  /** A commit of the scope. */
  lemma OwnReadOn(b: Db, c: Db, sid: nat, ids: seq<nat>, at: nat, now: nat, later: nat)
    requires RowsOk(b) && AllocationStep(b, c, sid, ids, at, now) && WindowSteady(b.(now := now), sid, at, later)
    ensures Passes(b, c, PlannedNow(b, sid, ids, at)) && ReadsOn(b, at, c, later, sid)
  {
    hide SnapshotMember, Valid, RowsSame, CountedFor, PlannedNow, NewAttempts, Buildable, AllocatedRow, AllocatedWorkflow, RowsOk, WindowSteady;
    ScopeHasDemands(b, sid, ids);
    var picks := PlannedNow(b, sid, ids, at);
    AllocationPasses(b, c, sid, ids, at, now);
    forall m | 0 <= m < |b.members| && Valid(b, m) && Valid(c, m) ensures SnapshotMember(c, sid, later, m) == SnapshotMember(b, sid, at, m) {
      var x := b.members[m].candidate;
      CountedReadBack(b.(now := now), c, sid, picks, at, later, x, b.demands[sid]);
      CountedClock(b, now, sid, x, at, b.demands[sid]);
      MemberReads(b, c, sid, at, later, m);
    }
  }

  lemma ScopeHasDemands(b: Db, sid: nat, ids: seq<nat>)
    requires Buildable(b, AllocationLinearisation.Batch(sid, ids))
    ensures sid < |b.demands|
  {}

  lemma {:induction false} CountedClock(b: Db, now: nat, sid: nat, candidate: nat, at: nat, rows: seq<DemandRow>)
    ensures CountedFor(b.(now := now), sid, candidate, at, rows) == CountedFor(b, sid, candidate, at, rows)
  {
    if rows != [] {
      CountedClock(b, now, sid, candidate, at, rows[..|rows| - 1]);
    }
  }

  // ----- everybody is planned once -----

  /** The valid members among the ids, as read for the instant. */
  ghost function WholeLine(db: Db, sid: nat, at: int, ids: seq<nat>): seq<Member>
    requires at >= 0 && sid < |db.demands|
  {
    SnapshotMembers(db, sid, at, ids, |db.members|)
  }

  ghost predicate InScope(db: Db, sid: nat, ids: seq<nat>) {
    forall m | m in ids :: m < |db.members| && db.members[m].scope == sid
  }

  lemma {:induction false} SameLine(b: Db, c: Db, sid: nat, at: nat, picks: seq<Decision>, ids: seq<nat>, n: nat)
    requires Passes(b, c, picks) && ReadsOn(b, at, c, at, sid) && InScope(b, sid, ids) && n <= |b.members|
    requires forall d | d in picks :: 0 <= d.memberId < |b.members| && b.members[d.memberId].scope != sid
    ensures SnapshotMembers(c, sid, at, ids, n) == SnapshotMembers(b, sid, at, ids, n)
  {
    hide Valid, SnapshotMember, RowsSame;
    if n > 0 {
      SameLine(b, c, sid, at, picks, ids, n - 1);
    }
  }

  /** After a commit of the first ids, what is left to plan for the others is what the commit left out. */
  ghost predicate Splits(b: Db, at: int, c: Db, later: int, sid: nat, first: seq<nat>, picks: seq<Decision>, demands: seq<Demand>) {
    && Passes(b, c, picks) && ReadsOn(b, at, c, later, sid)
    && (forall m | 0 <= m < |b.members| && PickedMember(picks, m) :: m in first && Valid(b, m))
    && forall m | 0 <= m < |b.members| && m in first && Valid(b, m) ::
         AnyFeasible(SnapshotMember(b, sid, at, m), demands) ==> PickedMember(picks, m)
  }

  lemma {:induction false} LinesSplit(
    b: Db, at: nat, c: Db, later: nat, sid: nat, first: seq<nat>, rest: seq<nat>, picks: seq<Decision>, demands: seq<Demand>, n: nat)
    requires Splits(b, at, c, later, sid, first, picks, demands) && n <= |b.members|
    ensures multiset(Assignable(SnapshotMembers(b, sid, at, first + rest, n), demands))
         == multiset(Assignable(SnapshotMembers(b, sid, at, first, n), demands))
            + multiset(Assignable(SnapshotMembers(c, sid, later, rest, n), demands))
  {
    hide Splits, Adds, Assignable, SnapshotMembers;
    SplitBounds(b, at, c, later, sid, first, picks, demands);
    if n == 0 {
      NobodyAssignable(demands);
      NobodyListed(b, sid, at, first + rest);
      NobodyListed(b, sid, at, first);
      NobodyListed(c, sid, later, rest);
    } else {
      LinesSplit(b, at, c, later, sid, first, rest, picks, demands, n - 1);
      LineSnoc(b, sid, at, first + rest, n, demands);
      LineSnoc(b, sid, at, first, n, demands);
      LineSnoc(c, sid, later, rest, n, demands);
      AddsSplit(b, at, c, later, sid, first, rest, picks, demands, n - 1);
      SumsAppend(Assignable(SnapshotMembers(b, sid, at, first + rest, n - 1), demands), Adds(b, sid, at, first + rest, n - 1, demands),
                 Assignable(SnapshotMembers(b, sid, at, first, n - 1), demands), Adds(b, sid, at, first, n - 1, demands),
                 Assignable(SnapshotMembers(c, sid, later, rest, n - 1), demands), Adds(c, sid, later, rest, n - 1, demands));
    }
  }

  lemma SplitBounds(b: Db, at: int, c: Db, later: int, sid: nat, first: seq<nat>, picks: seq<Decision>, demands: seq<Demand>)
    requires Splits(b, at, c, later, sid, first, picks, demands)
    ensures sid < |b.demands| && sid < |c.demands| && |c.members| == |b.members|
  {
    hide Valid, SnapshotMember, AnyFeasible, PickedMember;
  }

  lemma NobodyListed(db: Db, sid: nat, at: nat, ids: seq<nat>)
    requires sid < |db.demands|
    ensures SnapshotMembers(db, sid, at, ids, 0) == []
  {}

  lemma AddsSplit(
    b: Db, at: nat, c: Db, later: nat, sid: nat, first: seq<nat>, rest: seq<nat>, picks: seq<Decision>, demands: seq<Demand>, m: nat)
    requires Splits(b, at, c, later, sid, first, picks, demands) && m < |b.members| == |c.members| && sid < |b.demands| && sid < |c.demands|
    ensures multiset(Adds(b, sid, at, first + rest, m, demands))
         == multiset(Adds(b, sid, at, first, m, demands)) + multiset(Adds(c, sid, later, rest, m, demands))
  {
    hide Valid, SnapshotMember, RowsSame, AnyFeasible, PickedMember;
  }

  lemma SumsAppend<T>(a: seq<T>, x: seq<T>, b: seq<T>, y: seq<T>, c: seq<T>, z: seq<T>)
    requires multiset(a) == multiset(b) + multiset(c) && multiset(x) == multiset(y) + multiset(z)
    ensures multiset(a + x) == multiset(b + y) + multiset(c + z)
  {}

  lemma NobodyAssignable(demands: seq<Demand>)
    ensures Assignable([], demands) == []
  {}

  /** What the last member adds. */
  ghost function Adds(db: Db, sid: nat, at: nat, ids: seq<nat>, m: nat, demands: seq<Demand>): seq<Member>
    requires m < |db.members| && sid < |db.demands|
  {
    if m in ids && Valid(db, m) && AnyFeasible(SnapshotMember(db, sid, at, m), demands) then [SnapshotMember(db, sid, at, m)] else []
  }

  lemma LineSnoc(db: Db, sid: nat, at: nat, ids: seq<nat>, n: nat, demands: seq<Demand>)
    requires 0 < n <= |db.members| && sid < |db.demands|
    ensures Assignable(SnapshotMembers(db, sid, at, ids, n), demands)
         == Assignable(SnapshotMembers(db, sid, at, ids, n - 1), demands) + Adds(db, sid, at, ids, n - 1, demands)
  {
    hide Valid, SnapshotMember, AnyFeasible, Assignable;
    if n - 1 in ids && Valid(db, n - 1) {
      var m := SnapshotMember(db, sid, at, n - 1);
      AssignableAppend(SnapshotMembers(db, sid, at, ids, n - 1), [m], demands);
      AssignableOne(m, demands);
    }
  }

  lemma AssignableOne(m: Member, demands: seq<Demand>)
    ensures Assignable([m], demands) == if AnyFeasible(m, demands) then [m] else []
  {
    hide AnyFeasible;
    assert [m][1..] == [];
  }

  /** The order of a line does not matter for who is assignable. */
  lemma LineupAssignable(s: Snapshot, demands: seq<Demand>)
    ensures multiset(Assignable(Lineup(s), demands)) == multiset(Assignable(s.members, demands))
  {
    hide SortBy, Assignable, AnyFeasible, Earlier;
    forall m ensures multiset(Assignable(Lineup(s), demands))[m] == multiset(Assignable(s.members, demands))[m] {
      AssignableCount(Lineup(s), demands, m);
      AssignableCount(s.members, demands, m);
    }
  }

  /** Whoever can be assigned in a run is picked. */
  lemma {:induction false} FeasibleIsPicked(line: seq<Member>, demands: seq<Demand>, t: Tally, m: Member)
    requires m in line && AnyFeasible(m, demands)
    ensures PickedMember(Picks(Run(line, demands, t).0), m.memberId)
  {
    hide Absorb, Decide, AnyFeasible;
    var d := Decide(line[0], demands, t);
    var rest := Run(line[1..], demands, Absorb(line[0], d, t)).0;
    PicksCons(d, rest);
    if line[0] == m {
      assert d in Picks([d] + rest);
    } else {
      FeasibleIsPicked(line[1..], demands, Absorb(line[0], d, t), m);
      var e :| e in Picks(rest) && e.memberId == m.memberId;
      assert e in Picks([d] + rest);
    }
  }

  // ----- from the abstract steps to the tables -----

  lemma ViewRowsOk(db: Db)
    requires RowsOk(db)
    ensures RowsOk(View(db))
  {
    hide DistinctRows, DistinctCodes;
  }

  lemma LineSeenAlike(db: Db, sid: nat, at: int, ids: seq<nat>)
    requires at >= 0 && sid < |db.demands|
    ensures sid < |View(db).demands| && WholeLine(View(db), sid, at, ids) == WholeLine(db, sid, at, ids)
  {
    hide View, SnapshotMembers;
    ViewRows(db);
    MembersSeenAlike(db, sid, at, ids, |db.members|);
  }

  ghost predicate ScopesStay(b: Db, c: Db) {
    |c.members| == |b.members| && |c.demands| == |b.demands| && forall m | 0 <= m < |b.members| :: c.members[m].scope == b.members[m].scope
  }

  lemma PassesScopes(db: Db, next: Db, picks: seq<Decision>)
    requires Passes(View(db), View(next), picks)
    ensures ScopesStay(db, next)
  {
    hide View, Valid, PickedMember, RowsSame;
    ViewRows(db);
    ViewRows(next);
  }

  /** Between the commits of a scope, its line reads the same. */
  lemma LineKept(s: Sys, step: Step, sid: nat, at: int, ids: seq<nat>)
    requires Enabled(s, step) && !step.Edit? && !step.Screen? && !CommitsIn(s, step, sid) && Inv(s)
    requires at >= 0 && sid < |s.db.demands|
    ensures ScopesStay(s.db, Next(s, step).db)
    ensures InScope(s.db, sid, ids) ==> WholeLine(Next(s, step).db, sid, at, ids) == WholeLine(s.db, sid, at, ids)
  {
    hide Inv, Enabled, Next, View, AtomicStep, CommitsExecution, SnapshotMembers, Passes, ReadsOn, RowsOk;
    var db, next := s.db, Next(s, step).db;
    var act := StepRefines(s, step);
    InvRows(s);
    ViewRowsOk(db);
    ViewRows(db);
    ViewRows(next);
    var picks := OthersReadOn(View(db), act, View(next), sid, at);
    PassesScopes(db, next, picks);
    if InScope(db, sid, ids) {
      SameLine(View(db), View(next), sid, at, picks, ids, |db.members|);
      LineSeenAlike(db, sid, at, ids);
      LineSeenAlike(next, sid, at, ids);
    }
  }

  lemma InvRows(s: Sys)
    requires Inv(s)
    ensures Good(s.db) && RowsOk(s.db)
  {
    hide RowsOk, TasksOk, ItemsOk, SequencesOk, WorkerOk;
  }

  /** A commit of the scope plans its own members; for any others, the rest is left to plan. */
  lemma CommitSplits(db: Db, x: Worker, authorized: bool, next: Db, later: nat, demands: seq<Demand>, t: Tally, rest: seq<nat>)
    requires Good(db) && x.Accepted? && WorkerOk(db, x) && x.ticket.mode == Execute && x.request.snapshot.at >= 0
    requires Commit(db, x.ticket, x.request, x.decisions, authorized) == (next, CommitDone)
    requires WindowSteady(db, x.ticket.scope, x.request.snapshot.at, later)
    requires Picks(x.decisions) == Picks(Run(Lineup(Found(db, x)), demands, t).0)
    ensures ScopesStay(db, next) && x.ticket.scope < |db.demands| && InScope(db, x.ticket.scope, x.ticket.members)
    ensures multiset(Assignable(WholeLine(db, x.ticket.scope, x.request.snapshot.at, x.ticket.members + rest), demands))
         == multiset(Assignable(Lineup(Found(db, x)), demands))
            + multiset(Assignable(WholeLine(next, x.ticket.scope, later, rest), demands))
  {
    hide RowsOk, TasksOk, ItemsOk, SequencesOk, TicketOk, RequestOk, Commit, Buildable, Run, Picks, SortBy, Lineup, Assignable;
    hide WindowSteady, Revision, View, AllocationStep, Passes, ReadsOn, Splits, SnapshotMembers, PlannedNow, Found, InScope, MembersInScope;
    hide NewAttempts, Numbered, Plan, Build;
    var tk, at := x.ticket, x.request.snapshot.at;
    CommittedRecords(db, tk, x.request, x.decisions, authorized, next);
    CommitIsAtomicAllocation(db, tk, x.request, x.decisions, authorized);
    var act := CommitAct(db, tk, x.request, x.decisions, authorized);
    var b, c := View(db), View(next);
    FoundIs(db, x);
    ViewRowsOk(db);
    ViewRows(db);
    ViewRows(next);
    SteadySeen(db, tk.scope, at, later);
    OwnReadOn(b, c, tk.scope, tk.members, at, db.now, later);
    PassesScopes(db, next, Picks(x.decisions));
    TicketMembers(db, tk);
    StepBuildable(b, c, tk.scope, tk.members, at, db.now);
    CommitSplitsAt(db, x, c, later, demands, t);
    LinesSplit(b, at, c, later, tk.scope, tk.members, rest, Picks(x.decisions), demands, |db.members|);
    LineSeenAlike(db, tk.scope, at, tk.members + rest);
    LineSeenAlike(db, tk.scope, at, tk.members);
    LineSeenAlike(next, tk.scope, later, rest);
    LineupAssignable(Found(db, x), demands);
  }

  lemma SteadySeen(db: Db, sid: nat, at: nat, later: nat)
    requires WindowSteady(db, sid, at, later)
    ensures WindowSteady(View(db).(now := db.now), sid, at, later)
  {}

  lemma TicketMembers(db: Db, tk: Ticket)
    requires Good(db) && TicketOk(db, tk)
    ensures InScope(db, tk.scope, tk.members)
  {
    hide RowsOk, ItemsOk, SequencesOk;
    assert TaskOk(db, db.tasks[tk.task]);
  }

  lemma FoundIs(db: Db, x: Worker)
    requires x.Accepted? && Buildable(db, x.ticket) && x.request.snapshot.at >= 0
    ensures x.ticket.scope < |db.demands|
    ensures Found(db, x).members == WholeLine(db, x.ticket.scope, x.request.snapshot.at, x.ticket.members)
  {
    hide SnapshotMembers, Revision;
  }

  lemma CommitSplitsAt(db: Db, x: Worker, c: Db, later: nat, demands: seq<Demand>, t: Tally)
    requires RowsOk(View(db)) && x.Accepted? && Buildable(db, x.ticket) && x.request.snapshot.at >= 0
    requires Buildable(View(db), AllocationLinearisation.Batch(x.ticket.scope, x.ticket.members))
    requires PlannedNow(View(db), x.ticket.scope, x.ticket.members, x.request.snapshot.at) == Picks(x.decisions)
    requires Picks(x.decisions) == Picks(Run(Lineup(Found(db, x)), demands, t).0)
    requires Passes(View(db), c, Picks(x.decisions)) && ReadsOn(View(db), x.request.snapshot.at, c, later, x.ticket.scope)
    ensures Splits(View(db), x.request.snapshot.at, c, later, x.ticket.scope, x.ticket.members, Picks(x.decisions), demands)
  {
    hide RowsOk, Buildable, Run, Picks, Lineup, PlannedNow, Found, View, Passes, ReadsOn, SnapshotMembers, SnapshotMember, Valid, AnyFeasible;
    var b, sid, ids, at, picks := View(db), x.ticket.scope, x.ticket.members, x.request.snapshot.at, Picks(x.decisions);
    FoundIs(db, x);
    LineSeenAlike(db, sid, at, ids);
    ViewRows(db);
    SnapshotMembersListed(b, sid, at, ids, |b.members|);
    InLineup(Found(db, x));
    forall m | 0 <= m < |b.members| && PickedMember(picks, m) ensures m in ids && Valid(b, m) {
      var d :| d in picks && d.memberId == m;
      PickInScope(b, sid, ids, at, d);
    }
    forall m | 0 <= m < |b.members| && m in ids && Valid(b, m) && AnyFeasible(SnapshotMember(b, sid, at, m), demands)
      ensures PickedMember(picks, m)
    {
      MemberIdKept(b, sid, at, m);
      FeasibleIsPicked(Lineup(Found(db, x)), demands, t, SnapshotMember(b, sid, at, m));
    }
  }

  lemma InLineup(s: Snapshot)
    ensures forall m :: m in Lineup(s) <==> m in s.members
  {
    hide SortBy;
    SameElements(Lineup(s), s.members);
  }

  // ----- one plan -----

  lemma {:induction false} NoIds(db: Db, sid: nat, at: nat, n: nat)
    requires n <= |db.members| && sid < |db.demands|
    ensures SnapshotMembers(db, sid, at, [], n) == []
  {
    hide SnapshotMember, Valid;
    if n > 0 {
      NoIds(db, sid, at, n - 1);
    }
  }

  lemma InScopeBack(b: Db, c: Db, sid: nat, ids: seq<nat>)
    requires ScopesStay(b, c) && InScope(c, sid, ids)
    ensures InScope(b, sid, ids)
  {}

  lemma ReadBounds(db: Db, sid: nat, at: int, demands: seq<Demand>, t: Tally)
    requires DemandsRead(db, sid, at, demands, t)
    ensures at >= 0 && sid < |db.demands|
  {}

  /** In a run in which nothing comes from outside, the commits of a scope plan each assignable member
      of their tasks exactly once, as it was at the start. */
  lemma {:induction false} SeriesPlansEachOnce(
    s: Sys, steps: seq<Step>, sid: nat, finally: nat, demands: seq<Demand>, t: Tally)
    requires Inv(s) && Runs(s, steps) && EngineOnly(steps) && SteadyWindow(s, steps, sid, finally)
    requires DistinctDemands(demands) && Covers(t, demands)
    requires DemandsRead(s.db, sid, NextReading(s, steps, sid, finally), demands, t)
    ensures InScope(s.db, sid, SeriesIds(s, steps, sid))
    ensures NextReading(s, steps, sid, finally) >= 0 && sid < |s.db.demands|
    ensures multiset(Assignable(SeriesLine(s, steps, sid), demands))
         == multiset(Assignable(WholeLine(s.db, sid, NextReading(s, steps, sid, finally), SeriesIds(s, steps, sid)), demands))
    decreases |steps|
  {
    hide Inv, Enabled, Next, DemandsRead, DistinctDemands, Covers, CommitsExecution, Lineup, Found, Picks, Run, WindowSteady, Assignable;
    hide SnapshotMembers, ScopesStay, InScope;
    ReadBounds(s.db, sid, NextReading(s, steps, sid, finally), demands, t);
    if steps == [] {
      NoIds(s.db, sid, finally, |s.db.members|);
      NobodyInScope(s.db, sid);
    } else {
      var n := Next(s, steps[0]);
      StepKeepsInv(s, steps[0]);
      if CommitsIn(s, steps[0], sid) {
        CommitOf(s, steps[0]);
        var x, later := s.workers[steps[0].worker], NextReading(n, steps[1..], sid, finally);
        CommitContinues(s.db, x, steps[0].authorized, n.db, later, demands, t);
        var line := Lineup(Found(s.db, x));
        RunCovers(line, demands, t);
        SeriesPlansEachOnce(n, steps[1..], sid, finally, demands, Run(line, demands, t).1);
        var rest := SeriesIds(n, steps[1..], sid);
        CommitSplits(s.db, x, steps[0].authorized, n.db, later, demands, t, rest);
        InScopeBack(s.db, n.db, sid, rest);
        InScopeBoth(s.db, sid, x.ticket.members, rest);
        AssignableAppend(line, SeriesLine(n, steps[1..], sid), demands);
      } else {
        var at := NextReading(s, steps, sid, finally);
        StepReads(s, steps[0], sid, at, demands, t);
        SeriesPlansEachOnce(n, steps[1..], sid, finally, demands, t);
        var ids := SeriesIds(n, steps[1..], sid);
        LineKept(s, steps[0], sid, at, ids);
        InScopeBack(s.db, n.db, sid, ids);
        assert SeriesIds(s, steps, sid) == ids && SeriesLine(s, steps, sid) == SeriesLine(n, steps[1..], sid);
      }
    }
  }

  lemma NobodyInScope(db: Db, sid: nat)
    ensures InScope(db, sid, [])
  {}

  lemma InScopeBoth(db: Db, sid: nat, a: seq<nat>, b: seq<nat>)
    requires InScope(db, sid, a) && InScope(db, sid, b)
    ensures InScope(db, sid, a + b)
  {}

  lemma OpeningIsRead(demands: seq<Demand>, sequence: int)
    requires DistinctDemands(demands)
    ensures Refreshed(demands, Tally(SupplyOf(demands), LastOf(demands), sequence)) == demands
  {
    hide SupplyOf, LastOf;
    OpeningEntries(demands);
    assert forall i | 0 <= i < |demands| :: demands[i] in demands;
  }

  lemma WholeReads(db: Db, sid: nat, ids: seq<nat>, at: nat)
    requires RowsOk(db) && Buildable(db, AllocationLinearisation.Batch(sid, ids))
    ensures var s := Build(db, AllocationLinearisation.Batch(sid, ids), at, 0);
            && WellKeyed(s) && Covers(Opening(s), s.demands) && DemandsRead(db, sid, at, s.demands, Opening(s))
            && sid < |db.demands| && s.members == WholeLine(db, sid, at, ids)
  {
    hide SnapshotMembers, SnapshotDemand, Refreshed, Covers, SupplyOf, LastOf;
    var s := Build(db, AllocationLinearisation.Batch(sid, ids), at, 0);
    SnapshotWellKeyed(db, AllocationLinearisation.Batch(sid, ids), at, 0);
    OpeningCovers(s);
    OpeningIsRead(s.demands, s.nextSequence);
    BuildReads(db, AllocationLinearisation.Batch(sid, ids), at, 0);
  }

  /** Runs over lines with the same assignable members in order of arrival pick the same. */
  lemma SamePicks(a: seq<Member>, b: seq<Member>, all: seq<Member>, demands: seq<Demand>, t: Tally)
    requires multiset(Assignable(a, demands)) == multiset(Assignable(b, demands))
    requires Sorted(Earlier, Assignable(a, demands)) && Sorted(Earlier, Assignable(b, demands))
    requires DistinctMembers(all) && forall m | m in b :: m in all
    ensures Picks(Run(a, demands, t).0) == Picks(Run(b, demands, t).0) && Run(a, demands, t).1 == Run(b, demands, t).1
  {
    hide Assignable, Sorted, Earlier, Run, Picks, AnyFeasible;
    MemberOrders();
    MembersSeparated(all);
    var x, y := Assignable(a, demands), Assignable(b, demands);
    assert forall m | m in y :: m in all;
    SeparatesAmong(y, all);
    SortedUnique(Earlier, y, x);
    WaitersLeaveNoTrace(a, demands, t);
    WaitersLeaveNoTrace(b, demands, t);
  }

  lemma SeparatesAmong(some: seq<Member>, all: seq<Member>)
    requires Separates(Earlier, all) && forall m | m in some :: m in all
    ensures Separates(Earlier, some)
  {
    hide Earlier;
  }

  /** Batching does not show in the protocol: if nothing comes from outside and the assignable members
      are planned in order of arrival, the picks a scope's executions commit in the whole run are those
      of the one plan for all members of their tasks, made at the start; and in the end the tables
      show the quantities with which that plan ends. */
  lemma SeriesIsOnePlan(s: Sys, steps: seq<Step>, sid: nat, finally: nat, whole: Snapshot)
    requires Inv(s) && Runs(s, steps) && EngineOnly(steps) && SteadyWindow(s, steps, sid, finally)
    requires NextReading(s, steps, sid, finally) >= 0
    requires Buildable(s.db, AllocationLinearisation.Batch(sid, SeriesIds(s, steps, sid)))
    requires whole == Build(s.db, AllocationLinearisation.Batch(sid, SeriesIds(s, steps, sid)), NextReading(s, steps, sid, finally), 0)
    requires Sorted(Earlier, Assignable(SeriesLine(s, steps, sid), whole.demands))
    ensures SeriesPicks(s, steps, sid) == Picks(Plan(whole))
    ensures DemandsRead(After(s, steps).db, sid, finally, whole.demands, Outcome(whole).1)
  {
    hide Inv, Runs, SeriesIds, SeriesLine, SeriesPicks, SteadyWindow, NextReading, Buildable, Build, DemandsRead, Covers, Assignable, Earlier;
    hide Run, Picks, SortBy, SnapshotMembers, SupplyOf, LastOf, After, RowsOk;
    var at, ids, line := NextReading(s, steps, sid, finally), SeriesIds(s, steps, sid), SeriesLine(s, steps, sid);
    InvRows(s);
    WholeReads(s.db, sid, ids, at);
    assert Undisturbed(steps);
    SeriesIsOneRun(s, steps, sid, finally, whole.demands, Opening(whole));
    SeriesPlansEachOnce(s, steps, sid, finally, whole.demands, Opening(whole));
    LineupAssignable(whole, whole.demands);
    MemberOrders();
    SortBySorted(Earlier, whole.members);
    AssignableSorted(Lineup(whole), whole.demands);
    InLineup(whole);
    SamePicks(line, Lineup(whole), whole.members, whole.demands, Opening(whole));
  }
}
