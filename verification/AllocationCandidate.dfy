/** A commit's pick, seen from the candidate's own rows: the guards of the candidate's transaction
    hold, and its effect is the one the commit has on the tables. */
module AllocationCandidate {
  import opened AllocationTypes
  import opened AllocationPolicy
  import opened AllocationCanonical
  import opened AllocationBatching
  import opened AllocationStore
  import opened AllocationProtocol
  import opened AllocationCommit
  import opened AllocationInvariants
  import opened AllocationSafety
  import opened AllocationLedger
  import opened AllocationLinearisation
  import Candidate = CandidateFile
  import Safety = CandidateSafety
  import Writes = CandidateWrites

  /** The candidate's rows agree with the tables, membership k being member m. */
  ghost predicate Mirrors(db: Db, m: int, f: Candidate.File, k: nat) {
    && 0 <= m < |db.members| && k < |f.memberships| && db.members[m].candidate < |db.workflows|
    && var row, flow := db.members[m], db.workflows[db.members[m].candidate];
       && f.memberships[k] == Candidate.Membership(row.resume, row.status, row.revision)
       && f.flow.status == flow.status && f.flow.revision == flow.revision && f.flow.currentResume == flow.currentResume
       && (Candidate.HasEffective(f) <==> Assigned(db, row.candidate))
       && row.resume < f.resumes
       && (Candidate.Closed(Candidate.AppOf(f, row.resume).appStatus) <==> row.resume in db.closed)
  }

  /** A commit goes through only if the applications of all its picks are open. */
  lemma {:induction false} AppliedOpen(db: Db, tk: Ticket, ds: seq<Decision>, d: Decision)
    requires Executable(db, ds) && RowsOk(db) && tk.mode == Execute && ApplyDecisions(db, tk, ds).Some? && d in Picks(ds)
    ensures 0 <= d.memberId < |db.members| && db.members[d.memberId].resume !in db.closed
  {
    hide RowsOk, Executable, AssignMember, Update, WaitItem, LoopDone, AllocatedRow;
    var n := |ds| - 1;
    var rest, last := ds[..n], ds[n];
    assert ds == rest + [last];
    ExecutablePrefix(db, ds);
    PicksSnoc(rest, last);
    var mid := ApplyDecisions(db, tk, rest).value;
    if d in Picks(rest) {
      AppliedOpen(db, tk, rest, d);
    } else {
      assert d == last && last.action == Assign;
      LoopPlaces(db, tk, rest);
      ResumesStay(db, Picks(rest), mid);
      FreshCandidate(db, rest, d);
    }
  }

  lemma ResumesStay(db: Db, picks: seq<Decision>, next: Db)
    requires LoopDone(db, picks, next)
    ensures |next.members| == |db.members| && forall m | 0 <= m < |db.members| :: next.members[m].resume == db.members[m].resume
  {
    hide PickOf;
  }

  lemma PickIsTheOnly(db: Db, ds: seq<Decision>, d: Decision)
    requires Executable(db, ds) && d in Picks(ds) && 0 <= d.memberId < |db.members|
    ensures PickOf(db.members, Picks(ds), db.members[d.memberId].candidate) == Some(d)
  {
    hide Executable, Picks;
    var picks := Picks(ds);
    var i :| 0 <= i < |picks| && picks[i] == d;
    PickFound(db.members, picks, d);
    var e := PickOf(db.members, picks, db.members[d.memberId].candidate).value;
    var j :| 0 <= j < |picks| && picks[j] == e;
    if i < j {
      PicksApart(db, ds, i, j);
    } else if j < i {
      PicksApart(db, ds, j, i);
    }
  }

  lemma {:induction false} PickFound(members: seq<MemberRow>, picks: seq<Decision>, d: Decision)
    requires d in picks && 0 <= d.memberId < |members|
    ensures PickOf(members, picks, members[d.memberId].candidate).Some?
  {
    if picks[|picks| - 1] != d {
      PickFound(members, picks[..|picks| - 1], d);
    }
  }

  /** What a commit leaves in the rows of a pick. */
  lemma CommittedRows(db: Db, tk: Ticket, q: Request, ds: seq<Decision>, authorized: bool, next: Db, d: Decision)
    requires Good(db) && TicketOk(db, tk) && RequestOk(db, tk, q) && ds == Plan(q.snapshot) && tk.mode == Execute
    requires Commit(db, tk, q, ds, authorized) == (next, CommitDone) && d in Picks(ds)
    ensures 0 <= d.memberId < |db.members| == |next.members| && Valid(db, d.memberId)
    ensures var row := db.members[d.memberId];
            && row.resume !in db.closed && next.closed == db.closed && |next.workflows| == |db.workflows|
            && next.members[d.memberId] == row.(status := MemberAllocated, revision := row.revision + 1)
            && row.candidate < |db.workflows|
            && next.workflows[row.candidate] == db.workflows[row.candidate].(status := InProgress, currentResume := Some(row.resume))
            && Assigned(next, row.candidate)
  {
    hide TasksOk, ItemsOk, SequencesOk, Plan, Build, Canonical, WellKeyed, Executable, LeasedCovered, ApplyDecisions, Valid;
    hide Picks, Numbered, Revision, Buildable, MaxSequence, NewAttempts, PickOf, Assigned, Settle, RowsOk;
    CommittedRecords(db, tk, q, ds, authorized, next);
    CommitPlansCurrentState(db, tk, q, ds);
    PicksAreEligible(db, tk, q.snapshot.at, Revision(db, tk.scope), d);
    AppliedOpen(db, tk, ds, d);
    LoopPlaces(db, tk, ds);
    var applied := ApplyDecisions(db, tk, ds).value;
    SettledRows(applied, tk, MaxSequence(ds));
    PickIsTheOnly(db, ds, d);
    CandidateKnown(db, d.memberId);
    PickAssigned(db, next, tk, Picks(ds), d);
  }

  lemma CandidateKnown(db: Db, m: int)
    requires RowsOk(db) && 0 <= m < |db.members|
    ensures db.members[m].candidate < |db.workflows|
  {}

  lemma SettledRows(db: Db, tk: Ticket, top: int)
    requires tk.scope < |db.scopes| && tk.task < |db.tasks| && (tk.task, tk.generation) in db.plans
    ensures var next := Settle(db, tk, top);
            next.members == db.members && next.workflows == db.workflows && next.closed == db.closed && next.attempts == db.attempts
  {
    hide Update, Revision;
  }

  lemma PickAssigned(db: Db, next: Db, tk: Ticket, picks: seq<Decision>, d: Decision)
    requires forall d | d in picks :: 0 <= d.memberId < |db.members| && d.sequence >= 0 && d.qualificationRef >= 0
    requires d in picks && next.attempts == db.attempts + NewAttempts(db, tk.scope, picks)
    ensures Assigned(next, db.members[d.memberId].candidate)
  {
    hide NewAttempts;
    var i :| 0 <= i < |picks| && picks[i] == d;
    assert next.attempts[|db.attempts| + i] == NewAttempt(db.members[d.memberId], db.now, tk.scope, d);
  }

  /** In every reachable state, whatever a commit assigns could have been assigned by the candidate's
      own transaction: its guards hold at the commit, and it leaves the candidate's rows as the commit
      leaves the tables. */
  lemma CommitIsCandidatesAllocation(s: Sys, step: Step, d: Decision, f: Candidate.File, k: nat, department: nat)
    requires Enabled(s, step) && step.Conclude? && d in Picks(s.workers[step.worker].decisions)
    requires Inv(s) && CommitsExecution(s, step)
    requires Mirrors(s.db, d.memberId, f, k)
    ensures Candidate.Allocated(f, k, department).Some?
    ensures Mirrors(Next(s, step).db, d.memberId, Candidate.Allocated(f, k, department).value, k)
  {
    hide RowsOk, TasksOk, ItemsOk, SequencesOk, Plan, Build, TicketOk, RequestOk, Picks, Commit;
    var x := s.workers[step.worker];
    assert WorkerOk(s.db, x);
    var next := Commit(s.db, x.ticket, x.request, x.decisions, step.authorized).0;
    CommittedRows(s.db, x.ticket, x.request, x.decisions, step.authorized, next, d);
    AllocationMirrored(s.db, next, d.memberId, f, k, department);
  }

  lemma AllocationMirrored(db: Db, next: Db, m: int, f: Candidate.File, k: nat, department: nat)
    requires Mirrors(db, m, f, k) && Valid(db, m) && db.members[m].resume !in db.closed && next.closed == db.closed
    requires |next.members| == |db.members| && |next.workflows| == |db.workflows|
    requires var row := db.members[m];
             && next.members[m] == row.(status := MemberAllocated, revision := row.revision + 1)
             && next.workflows[row.candidate] == db.workflows[row.candidate].(status := InProgress, currentResume := Some(row.resume))
             && Assigned(next, row.candidate)
    ensures Candidate.Allocated(f, k, department).Some?
    ensures Mirrors(next, m, Candidate.Allocated(f, k, department).value, k)
  {
    hide Assigned, Latest, Candidate.HasEffective, Candidate.Closed, Candidate.SetApplication, Candidate.CloseMembers;
    hide Writes.Quiet, Safety.LogMoves;
    var r := db.members[m].resume;
    var mid := f.(attempts := f.attempts + [Candidate.Assignment(r, Candidate.Ai, PendingDispatch, department, None, false)]);
    var touched := Candidate.Touch(mid, r);
    Writes.TouchRows(mid, r);
    Writes.OnlyExceptRemains(mid, Some(r));
    Writes.NotClosedStatus();
    Writes.OpenStatusGoes(touched, r, Candidate.AppPendingDispatch, "allocated");
    Safety.SetApplicationMoves(touched, r, Candidate.AppPendingDispatch, "allocated");
    var g := Candidate.Allocated(f, k, department).value;
    NewIsEffective(g, |f.attempts|);
  }

  lemma NewIsEffective(f: Candidate.File, k: nat)
    requires k < |f.attempts| && f.attempts[k].status == PendingDispatch
    ensures Candidate.HasEffective(f)
  {}
}
