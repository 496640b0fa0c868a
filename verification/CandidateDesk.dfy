/** The candidate's rows as mutable state. A transaction either commits, with exactly the effect of
    its specification, or rolls every row back. */
module CandidateDesk {
  import opened AllocationStore
  import opened Preference
  import opened CandidateFile

  class Desk {
    var now: nat
    var nextToken: nat
    var flow: Flow
    var resumes: nat
    var apps: map<nat, Application>
    var events: seq<AppEvent>
    var attempts: seq<Assignment>
    var memberships: seq<Membership>
    var items: seq<ScopeItem>
    var runs: seq<RunRow>

    function State(): File
      reads this
    {
      File(now, nextToken, flow, resumes, apps, events, attempts, memberships, items, runs)
    }

    constructor (f: File)
      ensures State() == f
    {
      now, nextToken, flow, resumes, apps, events := f.now, f.nextToken, f.flow, f.resumes, f.apps, f.events;
      attempts, memberships, items, runs := f.attempts, f.memberships, f.items, f.runs;
    }

    method Rollback(f: File)
      modifies this`flow, this`apps, this`events, this`attempts, this`memberships, this`items
      ensures flow == f.flow && apps == f.apps && events == f.events
      ensures attempts == f.attempts && memberships == f.memberships && items == f.items
    {
      flow, apps, events, attempts, memberships, items := f.flow, f.apps, f.events, f.attempts, f.memberships, f.items;
    }

    // ----- statements shared by the transactions -----

    /** applicationState: false, and nothing written, when a closed application would be overwritten. */
    method SetState(resume: nat, status: AppStatus, reason: string) returns (ok: bool)
      modifies this`apps, this`events
      ensures SetApplication(old(State()), resume, status, reason) == if ok then Some(State()) else None
      ensures !ok ==> State() == old(State())
    {
      if resume >= resumes {
        return false;
      }
      var prior := if resume in apps then apps[resume] else Application(AppPending, "", None);
      if prior.appStatus == status && prior.reason == reason {
        apps := apps[resume := prior];
        return true;
      }
      if Closed(prior.appStatus) {
        return false;
      }
      apps := apps[resume := Application(status, reason, if Closed(status) then Some(now) else None)];
      events := events + [AppEvent(resume, prior.appStatus, status, reason)];
      ok := true;
    }

    /** cancelOpenAttempts, attempt by attempt. On failure the caller rolls back. */
    method CancelOpenAttempts(reason: string, sources: set<Source>) returns (ok: bool)
      modifies this`attempts, this`apps, this`events
      ensures ok ==> CancelAll(old(State()), reason, sources) == Some(State())
      ensures !ok ==> CancelAll(old(State()), reason, sources) == None
    {
      hide SetApplication;
      ghost var start := State();
      for n := 0 to |attempts|
        invariant |attempts| == |start.attempts|
        invariant CancelOpen(start, n, reason, sources) == Some(State())
      {
        var at := attempts[n];
        if OpenStatus(at.status) && (sources == {} || at.source in sources) {
          attempts := attempts[n := at.(status := AttemptCancelled)];
          var saved := SetState(at.resume, AppCancelled, reason);
          if !saved {
            CancelStaysRefused(start, n + 1, |start.attempts|, reason, sources);
            return false;
          }
        }
      }
      ok := true;
    }

    method CloseMemberships(except: Option<nat>)
      modifies this`memberships
      ensures State() == CloseMembers(old(State()), except)
    {
      memberships := Update(memberships, (m: Membership) =>
        if ActiveMember(m) && except != Some(m.resume) then m.(status := MemberClosed, revision := m.revision + 1) else m);
    }

    method TouchWorkflow(resume: nat)
      modifies this`memberships, this`flow
      ensures State() == Touch(old(State()), resume)
    {
      CloseMemberships(Some(resume));
      flow := flow.(status := InProgress, currentResume := Some(resume));
    }

    method InvalidateWorkflow()
      modifies this`flow
      ensures State() == Invalidate(old(State()))
    {
      flow := flow.(claim := None, revision := flow.revision + 1);
    }

    method AnyRemaining() returns (found: bool)
      ensures found <==> Remaining(State())
    {
      for r := 0 to resumes
        invariant forall k | 0 <= k < r :: Closed(AppOf(State(), k).appStatus)
      {
        if !Closed(AppOf(State(), r).appStatus) {
          return true;
        }
      }
      found := false;
    }

    method EnterTalentPool()
      modifies this`memberships, this`flow
      ensures State() == ToTalentPool(old(State()))
    {
      var remaining := AnyRemaining();
      if remaining {
        flow := flow.(status := WaitingNext, currentResume := None);
        return;
      }
      CloseMemberships(None);
      flow := flow.(status := TalentPool);
    }

    method DepartmentRejected()
      modifies this`memberships, this`flow
      ensures State() == AfterDepartmentRejection(old(State()))
    {
      hide Remaining;
      CloseMemberships(None);
      var remaining := AnyRemaining();
      if remaining {
        flow := flow.(status := WaitingNext, currentResume := None);
      } else {
        EnterTalentPool();
      }
    }

    method NewAttempt(resume: nat, source: Source, department: nat, reason: string) returns (ok: bool)
      modifies this`attempts, this`memberships, this`flow, this`apps, this`events
      ensures CreateAttempt(old(State()), resume, source, department, reason) == if ok then Some(State()) else None
    {
      hide SetApplication, Closed;
      if Closed(AppOf(State(), resume).appStatus) {
        return false;
      }
      attempts := attempts + [Assignment(resume, source, PendingDispatch, department, None, false)];
      TouchWorkflow(resume);
      ok := SetState(resume, AppPendingDispatch, reason);
    }

    // ----- transactions -----

    method AssignManually(resume: nat, department: nat, receives: bool) returns (done: bool)
      modifies this`attempts, this`memberships, this`flow, this`apps, this`events, this`items
      ensures ManualAssign(old(State()), resume, department, receives) == if done then Some(State()) else None
      ensures !done ==> State() == old(State())
    {
      hide CancelAll, CreateAttempt, CloseMembers;
      if resume >= resumes || flow.status == WorkflowPassed || !receives {
        return false;
      }
      var start := State();
      InvalidateWorkflow();
      done := CancelOpenAttempts("manual_replaced", {});
      if done {
        CloseMemberships(None);
        done := NewAttempt(resume, Manual, department, "manual");
      }
      if !done {
        Rollback(start);
      }
    }

    /** What follows a changed attempt, by action. */
    method Follow(a: nat, at: Assignment, action: Action, note: string) returns (done: bool)
      modifies this`attempts, this`memberships, this`flow, this`apps, this`events
      ensures (match action
               case Feedback(passed, comment) => Answered(old(State()), a, at.resume, passed, comment)
               case CancelAttempt(cause) => Withdrawn(old(State()), at.resume, cause)
               case _ => SetApplication(old(State()), at.resume,
                                        if at.status == Dispatched then DepartmentReview else AppPendingDispatch, note))
              == if done then Some(State()) else None
    {
      hide SetApplication, CancelAll, AfterDepartmentRejection, CloseMembers;
      match action {
        case Feedback(passed, comment) =>
          done := SetState(at.resume, if passed then AppPassed else AppStatus.DepartmentRejected, comment);
          if done && passed {
            flow := flow.(status := WorkflowPassed, passedAttempt := Some(a));
            done := CancelOpenAttempts("workflow_passed", {});
          } else if done {
            DepartmentRejected();
          }
        case CancelAttempt(cause) =>
          done := SetState(at.resume, AppCancelled, cause);
          if done && !HasOpen(State()) {
            CloseMemberships(None);
            flow := flow.(status := Archived);
          }
        case _ =>
          done := SetState(at.resume, if at.status == Dispatched then DepartmentReview else AppPendingDispatch, note);
      }
    }

    method MutateAttempt(a: nat, action: Action, permitted: bool, note: string) returns (done: bool)
      modifies this`attempts, this`memberships, this`flow, this`apps, this`events, this`items
      ensures Mutate(old(State()), a, action, permitted, note) == if done then Some(State()) else None
      ensures !done ==> State() == old(State())
    {
      hide SetApplication, Answered, Withdrawn;
      if a >= |attempts| || !permitted {
        return false;
      }
      var acted := Acted(attempts[a], action);
      if acted.None? {
        return false;
      }
      var start := State();
      InvalidateWorkflow();
      attempts := attempts[a := acted.value];
      done := Follow(a, acted.value, action, note);
      if !done {
        Rollback(start);
      }
    }

    method Commission(member: nat, department: nat) returns (done: bool)
      modifies this`attempts, this`memberships, this`flow, this`apps, this`events, this`items
      ensures Allocated(old(State()), member, department) == if done then Some(State()) else None
      ensures !done ==> State() == old(State())
    {
      hide CreateAttempt, HasEffective;
      if member >= |memberships| {
        return false;
      }
      var row := memberships[member];
      if row.status != PendingAllocation || flow.currentResume != Some(row.resume) || HasEffective(State())
         || flow.status in {WorkflowPassed, Archived, WaitingNext, TalentPool} {
        return false;
      }
      var start := State();
      done := NewAttempt(row.resume, Ai, department, "allocated");
      if done && member < |memberships| {
        memberships := memberships[member := row.(status := MemberAllocated, revision := row.revision + 1)];
      } else {
        done := false;
        Rollback(start);
      }
    }

    /** The second transaction of an analysis. */
    method FinishAnalysis(x: Flight, result: Analysis) returns (done: bool)
      modifies this`attempts, this`memberships, this`flow, this`apps, this`events, this`items
      ensures FinishItem(old(State()), x, result) == if done then Some(State()) else None
      ensures !done ==> State() == old(State())
    {
      hide CancelAll, Conclude, Touch, SetApplication, CurrentOf;
      if x.item >= |items| || items[x.item].run >= |runs| {
        return false;
      }
      if Terminal(items[x.item].state) {
        return true;
      }
      if !Holds(State(), x) || flow.revision != x.revision {
        items := items[x.item := items[x.item].(state := Skipped)];
        return true;
      }
      var current := CurrentOf(items[x.item]);
      if current.None? {
        return false;
      }
      var start := State();
      var resume := current.value;
      flow := flow.(claim := None);
      if runs[items[x.item].run].cancelRequested {
        items := items[x.item := items[x.item].(state := ItemStopped)];
        done := SetState(resume, Blocked, "cancelled");
      } else if result.Interrupted? {
        done := false;
      } else {
        done := CancelOpenAttempts("rerun", {Ai, Rule});
        if done {
          TouchWorkflow(resume);
          done := Store(x.item, resume, result, x.revision);
        }
      }
      if !done {
        Rollback(start);
      }
    }

    /** Storing an outcome whose claim still holds. */
    method Store(i: nat, resume: nat, result: Analysis, seen: nat) returns (done: bool)
      modifies this`memberships, this`flow, this`apps, this`events, this`items
      ensures Conclude(old(State()), i, resume, result, seen) == if done then Some(State()) else None
    {
      hide SetApplication, CloseMembers, Continue;
      match result {
        case Interrupted => done := false;
        case AnalysisFailed(why, transient) =>
          done := SetState(resume, Blocked, why);
          if done {
            flow := flow.(revision := seen + 1);
            End(i, if transient then ItemError else NeedsAttention);
          }
        case Rejected(why) =>
          CloseMemberships(None);
          done := SetState(resume, AiRejected, why);
          if done {
            flow := flow.(revision := seen + 1);
            MarkWritten(i);
            ContinueWith(i, seen + 1);
          }
        case Pooled(why) =>
          CloseMemberships(None);
          done := SetState(resume, AppPendingAllocation, why);
          if done {
            memberships := memberships + [Membership(resume, PendingAllocation, 1)];
            flow := flow.(revision := seen + 1);
            MarkWritten(i);
            End(i, Success);
          }
      }
    }

    method End(i: nat, state: ItemState)
      modifies this`items
      ensures State() == Ended(old(State()), i, state)
    {
      if i < |items| {
        items := items[i := items[i].(state := state)];
      }
    }

    method MarkWritten(i: nat)
      modifies this`items
      ensures State() == Written(old(State()), i)
    {
      if i < |items| {
        items := items[i := items[i].(written := true)];
      }
    }

    /** The snapshot is prepared anew and the item goes on with its next volunteer, or ends. */
    method ContinueWith(i: nat, revision: nat)
      modifies this`memberships, this`flow, this`items
      ensures State() == Continue(old(State()), i, revision)
    {
      hide Remaining, CloseMembers, CurrentOf, Advanced;
      if i >= |items| {
        EnterTalentPool();
        return;
      }
      var advanced := Advanced(items[i]);
      var current := CurrentOf(advanced);
      if current.None? {
        EnterTalentPool();
        End(i, Success);
        return;
      }
      TouchWorkflow(current.value);
      items := items[i := advanced.(state := Waiting, continuation := Some(revision))];
    }
  }

  /** Once a prefix of the attempts cannot be cancelled, neither can all. */
  lemma {:induction false} CancelStaysRefused(f: File, n: nat, m: nat, reason: string, sources: set<Source>)
    requires n <= m <= |f.attempts| && CancelOpen(f, n, reason, sources) == None
    ensures CancelOpen(f, m, reason, sources) == None
    decreases m
  {
    if n < m {
      CancelStaysRefused(f, n, m - 1, reason, sources);
    }
  }
}
