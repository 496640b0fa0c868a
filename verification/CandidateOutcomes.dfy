/** What each transaction leaves behind for the candidate, said on the rows alone. */
module CandidateOutcomes {
  import opened AllocationStore
  import opened Preference
  import opened CandidateFile
  import opened CandidateSafety
  import opened CandidateWrites
  import opened CandidateRuns

  // ----- statuses -----

  lemma StatusSets(s: AppStatus, t: AttemptStatus, i: ItemState, m: Membership)
    ensures Closed(s) <==> s in {AiRejected, DepartmentRejected, ReviewRejected, AppPassed}
    ensures OpenStatus(t) <==> t in {PendingReview, PendingDispatch, Dispatched}
    ensures EffectiveStatus(t) <==> t !in {AttemptRejected, AttemptCancelled}
    ensures Terminal(i) <==> i !in {CandidateFile.Waiting, Processing, WaitingConflict}
    ensures ActiveMember(m) <==> m.status !in {MemberClosed, MemberRejected}
  {}

  /** Whether applications remain, attempts are effective or open, and memberships wait, on the rows. */
  lemma RowSets(f: File)
    ensures Remaining(f) <==> exists r :: 0 <= r < f.resumes && AppOf(f, r).appStatus !in {AiRejected, DepartmentRejected, ReviewRejected, AppPassed}
    ensures HasEffective(f) <==> exists a :: 0 <= a < |f.attempts| && f.attempts[a].status !in {AttemptRejected, AttemptCancelled}
    ensures HasOpen(f) <==> exists a :: 0 <= a < |f.attempts| && f.attempts[a].status in {PendingReview, PendingDispatch, Dispatched}
  {
    StatusSetsAll(f);
    if Remaining(f) {
      var r :| 0 <= r < f.resumes && !Closed(AppOf(f, r).appStatus);
      assert AppOf(f, r).appStatus !in {AiRejected, DepartmentRejected, ReviewRejected, AppPassed};
    }
  }

  lemma StatusSetsAll(f: File)
    ensures forall a | 0 <= a < |f.attempts| ::
              && (OpenStatus(f.attempts[a].status) <==> f.attempts[a].status in {PendingReview, PendingDispatch, Dispatched})
              && (EffectiveStatus(f.attempts[a].status) <==> f.attempts[a].status !in {AttemptRejected, AttemptCancelled})
  {
    forall a | 0 <= a < |f.attempts|
      ensures OpenStatus(f.attempts[a].status) <==> f.attempts[a].status in {PendingReview, PendingDispatch, Dispatched}
      ensures EffectiveStatus(f.attempts[a].status) <==> f.attempts[a].status !in {AttemptRejected, AttemptCancelled}
    {
      StatusSets(Blocked, f.attempts[a].status, Success, Membership(0, MemberClosed, 0));
    }
  }

  /** Setting a status: nothing happens if status and reason are there already; otherwise it is written,
      with the time of completion if it ends the application, and logged. */
  lemma ApplicationOutcome(f: File, r: nat, status: AppStatus, reason: string)
    requires r < f.resumes
    ensures var (prior, g) := (AppOf(f, r), SetApplication(f, r, status, reason));
            if prior.appStatus == status && prior.reason == reason
            then g.Some? && g.value == f.(apps := g.value.apps) && forall k: nat :: AppOf(g.value, k) == AppOf(f, k)
            else if prior.appStatus in {AiRejected, DepartmentRejected, ReviewRejected, AppPassed} then g == None
            else
              && g.Some? && g.value == f.(apps := g.value.apps, events := f.events + [AppEvent(r, prior.appStatus, status, reason)])
              && AppOf(g.value, r) == Application(status, reason,
                   if status in {AiRejected, DepartmentRejected, ReviewRejected, AppPassed} then Some(f.now) else None)
              && forall k: nat | k != r :: AppOf(g.value, k) == AppOf(f, k)
  {}

  /** The application has the status, at most one event was logged, namely the one that led there, and
      no other application changed. */
  ghost predicate EndsIn(f: File, g: File, r: nat, status: AppStatus, reason: string) {
    && AppOf(g, r).appStatus == status && AppOf(g, r).reason == reason
    && (if AppOf(f, r).appStatus == status && AppOf(f, r).reason == reason then g.events == f.events
        else g.events == f.events + [AppEvent(r, AppOf(f, r).appStatus, status, reason)])
    && forall q: nat | q != r :: AppOf(g, q) == AppOf(f, q)
  }

  lemma SetEndsIn(f: File, r: nat, status: AppStatus, reason: string)
    requires SetApplication(f, r, status, reason).Some?
    ensures EndsIn(f, SetApplication(f, r, status, reason).value, r, status, reason)
    ensures var g := SetApplication(f, r, status, reason).value; g == f.(apps := g.apps, events := g.events)
  {}

  lemma {:induction false} NothingToCancel(f: File, n: nat, reason: string, sources: set<Source>)
    requires n <= |f.attempts| && forall k | 0 <= k < |f.attempts| :: !OpenStatus(f.attempts[k].status)
    ensures CancelOpen(f, n, reason, sources) == Some(f)
  {
    if n > 0 {
      NothingToCancel(f, n - 1, reason, sources);
    }
  }

  // ----- people -----

  predicate Inactive(ms: seq<Membership>) { forall m | 0 <= m < |ms| :: ms[m].status in {MemberClosed, MemberRejected} }

  /** Which actions the attempt's row allows. */
  predicate Allowed(at: Assignment, action: Action) {
    match action
    case Dispatch => at.status == PendingDispatch
    case TransferDepartment(d) => at.status == Dispatched && d != at.department
    case TransferScreener(s) => at.status == Dispatched && at.screener != Some(s)
    case CancelAttempt(_) => at.status == PendingDispatch
    case Feedback(_, _) => at.status == Dispatched && !at.answered
  }

  /** The row the action leads to. */
  predicate LeadsTo(at: Assignment, action: Action, b: Assignment) {
    match action
    case Dispatch => b == at.(status := Dispatched)
    case TransferDepartment(d) => b == at.(department := d, screener := None)
    case TransferScreener(s) => b == at.(screener := Some(s))
    case CancelAttempt(_) => b == at.(status := AttemptCancelled)
    case Feedback(passed, _) => b == at.(answered := true, status := if passed then AttemptPassed else AttemptRejected)
  }

  /** An action is carried out exactly if it is permitted and the attempt's row allows it. The attempt
      moves on as the action says and no other attempt changes; the revision goes up and the claim is
      dropped. The application ends in the matching status: passed or rejected by the department after
      feedback, cancelled after a cancellation, and under the department's review otherwise. */
  lemma ActionOutcome(f: File, a: nat, action: Action, permitted: bool, note: string)
    requires Sound(f) && OpenApps(f)
    ensures Mutate(f, a, action, permitted, note).Some? <==> a < |f.attempts| && permitted && Allowed(f.attempts[a], action)
    ensures Mutate(f, a, action, permitted, note).Some? ==>
              var g, r := Mutate(f, a, action, permitted, note).value, f.attempts[a].resume;
              && |g.attempts| == |f.attempts| && LeadsTo(f.attempts[a], action, g.attempts[a])
              && (forall k | 0 <= k < |f.attempts| && k != a :: g.attempts[k] == f.attempts[k])
              && g.items == f.items && g.runs == f.runs && g.resumes == f.resumes
              && var next := f.flow.(revision := f.flow.revision + 1, claim := None);
                 match action {
                   case Feedback(passed, comment) =>
                     && EndsIn(f, g, r, if passed then AppPassed else DepartmentRejected, comment)
                     && (passed ==> g.flow == next.(status := WorkflowPassed, passedAttempt := Some(a)) && g.memberships == f.memberships)
                     && (!passed ==> Inactive(g.memberships))
                     && (!passed && Remaining(g) ==> g.flow == next.(status := WaitingNext, currentResume := None))
                     && (!passed && !Remaining(g) ==> g.flow == next.(status := TalentPool))
                   case CancelAttempt(cause) => EndsIn(f, g, r, AppCancelled, cause) && g.flow == next.(status := Archived) && Inactive(g.memberships)
                   case _ => EndsIn(f, g, r, DepartmentReview, note) && g.flow == next && g.memberships == f.memberships
                 }
  {
    hide SetApplication, Remaining, CloseMembers, EndsIn, Closed, Sound, OpenApps, CancelAll, ToTalentPool;
    if a < |f.attempts| && permitted && Allowed(f.attempts[a], action) {
      var at := Acted(f.attempts[a], action).value;
      var mid := Invalidate(f).(attempts := f.attempts[a := at]);
      OpenAppAt(f, mid, a);
      match action {
        case Feedback(passed, comment) => FeedbackOutcome(f, mid, a, at, passed, comment);
        case CancelAttempt(cause) =>
          StatusGoes(mid, at.resume, AppCancelled, cause);
          SetEndsIn(mid, at.resume, AppCancelled, cause);
          var g := SetApplication(mid, at.resume, AppCancelled, cause).value;
          SoundParts(f);
          NobodyElse(f, a, g);
          OnlyExceptRemains(g, None);
          NoneActive(CloseMembers(g, None), None);
          EndsAlike(f, mid, g, Archive(g), at.resume, AppCancelled, cause);
        case _ =>
          StatusGoes(mid, at.resume, DepartmentReview, note);
          SetEndsIn(mid, at.resume, DepartmentReview, note);
          var g := SetApplication(mid, at.resume, DepartmentReview, note).value;
          EndsAlike(f, mid, g, g, at.resume, DepartmentReview, note);
      }
    }
  }

  lemma OpenAppAt(f: File, mid: File, a: nat)
    requires OpenApps(f) && a < |f.attempts| && OpenStatus(f.attempts[a].status) && mid.apps == f.apps && mid.resumes == f.resumes
    ensures f.attempts[a].resume < mid.resumes && !Closed(AppOf(mid, f.attempts[a].resume).appStatus)
  {
    hide Closed;
  }

  lemma EndsAlike(f: File, mid: File, g: File, h: File, r: nat, status: AppStatus, reason: string)
    requires EndsIn(mid, g, r, status, reason) && mid.apps == f.apps && mid.events == f.events && h.apps == g.apps && h.events == g.events
    ensures EndsIn(f, h, r, status, reason)
  {
    forall q: nat | q != r ensures AppOf(h, q) == AppOf(f, q) {
      assert AppOf(g, q) == AppOf(mid, q);
    }
  }

  lemma FeedbackOutcome(f: File, mid: File, a: nat, at: Assignment, passed: bool, comment: string)
    requires Sound(f) && OpenApps(f) && a < |f.attempts| && f.attempts[a].status == Dispatched && !f.attempts[a].answered
    requires at == f.attempts[a].(status := if passed then AttemptPassed else AttemptRejected, answered := true)
    requires mid == Invalidate(f).(attempts := f.attempts[a := at])
    ensures var g := Answered(mid, a, at.resume, passed, comment);
            && g.Some? && g.value == mid.(flow := g.value.flow, memberships := g.value.memberships, apps := g.value.apps, events := g.value.events)
            && EndsIn(f, g.value, at.resume, if passed then AppPassed else DepartmentRejected, comment)
            && (passed ==> g.value.flow == mid.flow.(status := WorkflowPassed, passedAttempt := Some(a)) && g.value.memberships == f.memberships)
            && (!passed ==> Inactive(g.value.memberships))
            && (!passed && Remaining(g.value) ==> g.value.flow == mid.flow.(status := WaitingNext, currentResume := None))
            && (!passed && !Remaining(g.value) ==> g.value.flow == mid.flow.(status := TalentPool))
  {
    hide SetApplication, Remaining, CloseMembers, EndsIn, Closed, Sound, OpenApps;
    OpenAppAt(f, mid, a);
    var status := if passed then AppPassed else DepartmentRejected;
    StatusGoes(mid, at.resume, status, comment);
    SetEndsIn(mid, at.resume, status, comment);
    var s := SetApplication(mid, at.resume, status, comment).value;
    SoundParts(f);
    if passed {
      var h := s.(flow := s.flow.(status := WorkflowPassed, passedAttempt := Some(a)));
      OnlyPassed(f, a, h);
      NothingToCancel(h, |h.attempts|, "workflow_passed", {});
      EndsAlike(f, mid, s, h, at.resume, status, comment);
    } else {
      OnlyExceptRemains(s, None);
      OnlyExceptRemains(CloseMembers(s, None), None);
      var c := CloseMembers(s, None);
      RemainingSame(s, c);
      RemainingSame(c, ToTalentPool(c));
      RemainingSame(s, AfterDepartmentRejection(s));
      EndsAlike(f, mid, s, AfterDepartmentRejection(s), at.resume, status, comment);
    }
  }

  /** The first n attempts that are open and of the given sources, or of any when none is given. */
  predicate Cancels(f: File, n: nat, sources: set<Source>, k: nat) {
    k < n <= |f.attempts| && f.attempts[k].status in {PendingReview, PendingDispatch, Dispatched} && (sources == {} || f.attempts[k].source in sources)
  }

  /** Exactly these become cancelled and their applications with them; every other row stays as it is. */
  lemma {:induction false} CancelledRows(f: File, n: nat, reason: string, sources: set<Source>)
    requires n <= |f.attempts| && CancelOpen(f, n, reason, sources).Some?
    ensures var g := CancelOpen(f, n, reason, sources).value;
            && g == f.(attempts := g.attempts, apps := g.apps, events := g.events) && |g.attempts| == |f.attempts|
            && (forall k | 0 <= k < |f.attempts| ::
                  g.attempts[k] == if Cancels(f, n, sources, k) then f.attempts[k].(status := AttemptCancelled) else f.attempts[k])
            && (forall k | 0 <= k < |f.attempts| && Cancels(f, n, sources, k) :: AppOf(g, f.attempts[k].resume).appStatus == AppCancelled)
            && forall q: nat | AppOf(g, q) != AppOf(f, q) ::
                 !Closed(AppOf(f, q).appStatus) && exists k :: 0 <= k < n && Cancels(f, n, sources, k) && f.attempts[k].resume == q
    decreases n
  {
    hide SetApplication, Closed;
    if n > 0 {
      CancelledRows(f, n - 1, reason, sources);
      var g := CancelOpen(f, n - 1, reason, sources).value;
      var at := g.attempts[n - 1];
      if Cancels(f, n, sources, n - 1) {
        var h := g.(attempts := g.attempts[n - 1 := at.(status := AttemptCancelled)]);
        SetEndsIn(h, at.resume, AppCancelled, reason);
        SetWasOpen(h, at.resume, AppCancelled, reason);
        assert forall q: nat :: AppOf(h, q) == AppOf(g, q);
      }
      forall q: nat | AppOf(CancelOpen(f, n, reason, sources).value, q) != AppOf(f, q)
        ensures !Closed(AppOf(f, q).appStatus) && exists k :: 0 <= k < n && Cancels(f, n, sources, k) && f.attempts[k].resume == q
      {
        if AppOf(g, q) != AppOf(f, q) {
          var k :| 0 <= k < n - 1 && Cancels(f, n - 1, sources, k) && f.attempts[k].resume == q;
          assert Cancels(f, n, sources, k);
        } else {
          assert Cancels(f, n, sources, n - 1) && at.resume == q;
        }
      }
    }
  }

  lemma CancelledAllRows(f: File, reason: string, sources: set<Source>)
    requires OpenApps(f)
    ensures CancelAll(f, reason, sources).Some?
    ensures var g, n := CancelAll(f, reason, sources).value, |f.attempts|;
            && g == f.(attempts := g.attempts, apps := g.apps, events := g.events) && |g.attempts| == n
            && (forall k | 0 <= k < n ::
                  g.attempts[k] == if Cancels(f, n, sources, k) then f.attempts[k].(status := AttemptCancelled) else f.attempts[k])
            && (forall k | 0 <= k < n && Cancels(f, n, sources, k) :: AppOf(g, f.attempts[k].resume).appStatus == AppCancelled)
            && forall q: nat :: AppOf(g, q) == AppOf(f, q) || (!Closed(AppOf(f, q).appStatus) && AppOf(g, q).appStatus == AppCancelled)
  {
    hide Closed, OpenApps;
    CancelGoes(f, |f.attempts|, reason, sources);
    CancelledRows(f, |f.attempts|, reason, sources);
    var g := CancelAll(f, reason, sources).value;
    forall q: nat | AppOf(g, q) != AppOf(f, q) ensures !Closed(AppOf(f, q).appStatus) && AppOf(g, q).appStatus == AppCancelled {
      var k :| 0 <= k < |f.attempts| && Cancels(f, |f.attempts|, sources, k) && f.attempts[k].resume == q;
    }
  }

  lemma SetWasOpen(f: File, r: nat, status: AppStatus, reason: string)
    requires SetApplication(f, r, status, reason).Some?
    ensures AppOf(SetApplication(f, r, status, reason).value, r) == AppOf(f, r) || !Closed(AppOf(f, r).appStatus)
  {}

  /** Creating an attempt is refused exactly for a closed application or a resume that does not exist. It
      adds one row waiting for dispatch and makes its resume the current one. */
  lemma CreatedRows(f: File, resume: nat, source: Source, department: nat, reason: string)
    ensures var g := CreateAttempt(f, resume, source, department, reason);
            && (g.Some? <==> resume < f.resumes && !Closed(AppOf(f, resume).appStatus))
            && (g.Some? ==>
                  && g.value.attempts == f.attempts + [Assignment(resume, source, PendingDispatch, department, None, false)]
                  && g.value.memberships == CloseMembers(f, Some(resume)).memberships
                  && g.value.flow == f.flow.(status := InProgress, currentResume := Some(resume))
                  && EndsIn(f, g.value, resume, AppPendingDispatch, reason))
  {
    hide SetApplication, CloseMembers, EndsIn, Closed;
    NotClosedStatus();
    var mid := f.(attempts := f.attempts + [Assignment(resume, source, PendingDispatch, department, None, false)]);
    OnlyExceptRemains(mid, Some(resume));
    OnlyExceptRemains(f, Some(resume));
    OpenStatusGoes(Touch(mid, resume), resume, AppPendingDispatch, reason);
    if resume < f.resumes && !Closed(AppOf(f, resume).appStatus) {
      SetEndsIn(Touch(mid, resume), resume, AppPendingDispatch, reason);
      var g := SetApplication(Touch(mid, resume), resume, AppPendingDispatch, reason).value;
      EndsAlike(f, Touch(mid, resume), g, g, resume, AppPendingDispatch, reason);
      SameClosing(f, mid, Some(resume));
    }
  }

  lemma SameClosing(f: File, g: File, except: Option<nat>)
    requires g.memberships == f.memberships
    ensures CloseMembers(g, except).memberships == CloseMembers(f, except).memberships
  {}

  /** A manual assignment is carried out exactly for an open application of a candidate who has not
      passed, to a department that may receive. It cancels what was open, closes all memberships, and adds
      a manual attempt waiting for dispatch. */
  lemma ManualOutcome(f: File, resume: nat, department: nat, receives: bool)
    requires Sound(f) && OpenApps(f)
    ensures ManualAssign(f, resume, department, receives).Some? <==>
              && resume < f.resumes && f.flow.status != WorkflowPassed && receives
              && AppOf(f, resume).appStatus !in {AiRejected, DepartmentRejected, ReviewRejected, AppPassed}
    ensures ManualAssign(f, resume, department, receives).Some? ==>
              var g, n := ManualAssign(f, resume, department, receives).value, |f.attempts|;
              && |g.attempts| == n + 1 && g.attempts[n] == Assignment(resume, Manual, PendingDispatch, department, None, false)
              && (forall k | 0 <= k < n :: g.attempts[k] ==
                    if f.attempts[k].status in {PendingReview, PendingDispatch, Dispatched}
                    then f.attempts[k].(status := AttemptCancelled) else f.attempts[k])
              && (forall m | 0 <= m < |g.memberships| :: g.memberships[m].status in {MemberClosed, MemberRejected})
              && g.flow == f.flow.(status := InProgress, currentResume := Some(resume), revision := f.flow.revision + 1, claim := None)
              && AppOf(g, resume).appStatus == AppPendingDispatch
              && forall q: nat | q != resume && AppOf(g, q) != AppOf(f, q) ::
                   AppOf(g, q).appStatus == AppCancelled && AppOf(f, q).appStatus !in {AiRejected, DepartmentRejected, ReviewRejected, AppPassed}
  {
    hide SetApplication, CloseMembers, OpenApps, Sound, CancelAll, CreateAttempt, Closed;
    StatusSets(AppOf(f, resume).appStatus, PendingReview, Success, Membership(0, MemberClosed, 0));
    if resume < f.resumes && f.flow.status != WorkflowPassed && receives {
      var a := Invalidate(f);
      OpenAppsSame(f, a);
      CancelledAllRows(a, "manual_replaced", {});
      NotClosedStatus();
      var b := CancelAll(a, "manual_replaced", {}).value;
      assert ManualAssign(f, resume, department, receives) == CreateAttempt(CloseMembers(b, None), resume, Manual, department, "manual");
      OnlyExceptRemains(b, None);
      assert AppOf(CloseMembers(b, None), resume) == AppOf(b, resume) && AppOf(a, resume) == AppOf(f, resume);
      CreatedRows(CloseMembers(b, None), resume, Manual, department, "manual");
      NoneActive(CloseMembers(b, None), Some(resume));
      if ManualAssign(f, resume, department, receives).Some? {
        OthersCancelled(f, b, ManualAssign(f, resume, department, receives).value, resume);
      }
    }
  }

  lemma OthersCancelled(f: File, b: File, g: File, resume: nat)
    requires forall q: nat :: AppOf(b, q) == AppOf(f, q) || (!Closed(AppOf(f, q).appStatus) && AppOf(b, q).appStatus == AppCancelled)
    requires forall q: nat | q != resume :: AppOf(g, q) == AppOf(b, q)
    ensures forall q: nat | q != resume && AppOf(g, q) != AppOf(f, q) ::
              AppOf(g, q).appStatus == AppCancelled && AppOf(f, q).appStatus !in {AiRejected, DepartmentRejected, ReviewRejected, AppPassed}
  {}

  /** Where no membership is active, closing changes none. */
  lemma NoneActive(f: File, except: Option<nat>)
    requires forall m | 0 <= m < |f.memberships| :: !ActiveMember(f.memberships[m])
    ensures forall m | 0 <= m < |CloseMembers(f, except).memberships| :: CloseMembers(f, except).memberships[m].status in {MemberClosed, MemberRejected}
  {
    hide CloseMembers;
    OnlyExceptRemains(f, except);
  }

  // ----- storing an analysis -----

  /** What storing an outcome writes. A failure blocks the application and leaves the memberships alone; a
      rejection closes them all and moves on; an acceptance closes them all and adds one that waits for
      allocation. */
  ghost predicate Concluded(f: File, g: File, i: nat, r: nat, result: Analysis)
    requires i < |f.items| && !result.Interrupted?
  {
    && g.attempts == f.attempts && g.flow.revision == f.flow.revision + 1 && g.flow.claim == f.flow.claim
    && match result {
         case AnalysisFailed(why, transient) =>
           && EndsIn(f, g, r, Blocked, why) && g.memberships == f.memberships
           && g.items == f.items[i := f.items[i].(state := if transient then ItemError else NeedsAttention)]
           && g.flow == f.flow.(revision := f.flow.revision + 1)
         case Rejected(why) => EndsIn(f, g, r, AiRejected, why) && Inactive(g.memberships) && RejectionRow(f, i, g)
         case Pooled(why) =>
           && EndsIn(f, g, r, AppPendingAllocation, why)
           && |g.memberships| == |f.memberships| + 1 && Inactive(g.memberships[..|f.memberships|])
           && g.memberships[|f.memberships|] == Membership(r, PendingAllocation, 1)
           && g.items == f.items[i := f.items[i].(state := Success, written := true)]
           && g.flow == f.flow.(revision := f.flow.revision + 1)
       }
  }

  lemma ConcludeOutcome(f: File, i: nat, r: nat, result: Analysis)
    requires i < |f.items| && r < f.resumes && !Closed(AppOf(f, r).appStatus) && !result.Interrupted?
    ensures Conclude(f, i, r, result, f.flow.revision).Some?
    ensures Concluded(f, Conclude(f, i, r, result, f.flow.revision).value, i, r, result)
  {
    hide Current, Closed, SetApplication, ToTalentPool, CloseMembers, Continue, EndsIn, RejectionRow, NoneAllocated;
    hide ItemsKept, HasAllocated;
    ConcludeStores(f, i, r, result);
    var seen := f.flow.revision;
    var status := if result.AnalysisFailed? then Blocked else if result.Rejected? then AiRejected else AppPendingAllocation;
    var c := if result.AnalysisFailed? then f else CloseMembers(f, None);
    OnlyExceptRemains(f, None);
    StatusGoes(c, r, status, result.why);
    SetEndsIn(c, r, status, result.why);
    var s := SetApplication(c, r, status, result.why).value;
    var g := Conclude(f, i, r, result, seen).value;
    if result.Rejected? {
      ContinueLog(Written(Bump(s, seen), i), i, seen + 1);
      ContinueCloses(Written(Bump(s, seen), i), i, seen + 1);
    }
    EndsAlike(f, c, s, g, r, status, result.why);
  }

  lemma ContinueLog(f: File, i: nat, revision: nat)
    ensures Continue(f, i, revision).apps == f.apps && Continue(f, i, revision).events == f.events
  {
    hide Current, Remaining;
  }

  lemma ContinueCloses(f: File, i: nat, revision: nat)
    requires forall m | 0 <= m < |f.memberships| :: !ActiveMember(f.memberships[m])
    ensures Inactive(Continue(f, i, revision).memberships)
  {
    hide Current, Remaining, CloseMembers, Advanced;
    NoneActive(f, None);
    if i < |f.items| && CurrentOf(Advanced(f.items[i])).Some? {
      NoneActive(f, CurrentOf(Advanced(f.items[i])));
    }
  }

  /** The second transaction of a background analysis. Nothing happens to a finished item; an item whose
      claim or revision is gone is skipped; a run to be cancelled stops it; otherwise the engine's own open
      attempts are cancelled and the outcome is stored. */
  lemma FinishOutcome(f: File, x: Flight, result: Analysis)
    requires x.item < |f.items| && f.items[x.item].run < |f.runs| && OpenApps(f) && LiveFlight(f, x)
    ensures var g, item := FinishItem(f, x, result), f.items[x.item];
            var held := f.flow.claim.Some? && f.flow.claim.value.item == x.item && f.flow.claim.value.token == x.token
                        && f.flow.revision == x.revision;
            if item.state !in {CandidateFile.Waiting, Processing, WaitingConflict} then g == Some(f)
            else if !held then g == Some(f.(items := f.items[x.item := item.(state := Skipped)]))
            else if f.runs[item.run].cancelRequested then
              && g.Some? && CurrentOf(item).Some? && EndsIn(f, g.value, CurrentOf(item).value, Blocked, "cancelled")
              && g.value == f.(items := f.items[x.item := item.(state := ItemStopped)], flow := f.flow.(claim := None),
                               apps := g.value.apps, events := g.value.events)
            else if result.Interrupted? then g == None
            else
              && g.Some? && CurrentOf(item).Some? && g.value.flow.claim == None
              && exists t :: Readying(f, t, CurrentOf(item).value) && Concluded(t, g.value, x.item, CurrentOf(item).value, result)
  {
    hide Current, Closed, SetApplication, CancelAll, Conclude, Touch, OpenApps, EndsIn, Concluded, Readying, Quiet;
    StatusSets(Blocked, PendingReview, f.items[x.item].state, Membership(0, MemberClosed, 0));
    if Held(f, x) {
      var r, a := CurrentOf(f.items[x.item]).value, f.(flow := f.flow.(claim := None));
      if f.runs[f.items[x.item].run].cancelRequested {
        var h := SetItem(a, x.item, ItemStopped);
        StatusGoes(h, r, Blocked, "cancelled");
        SetEndsIn(h, r, Blocked, "cancelled");
        var g := SetApplication(h, r, Blocked, "cancelled").value;
        EndsAlike(f, h, g, g, r, Blocked, "cancelled");
      } else if !result.Interrupted? {
        ReadyForOutcome(f, x);
        var t := Touch(CancelAll(a, "rerun", {Ai, Rule}).value, r);
        ConcludeOutcome(t, x.item, r, result);
        assert Concluded(t, FinishItem(f, x, result).value, x.item, r, result);
        ClaimStaysDropped(t, FinishItem(f, x, result).value, x.item, r, result);
      }
    }
  }

  lemma ClaimStaysDropped(t: File, g: File, i: nat, r: nat, result: Analysis)
    requires i < |t.items| && !result.Interrupted? && Concluded(t, g, i, r, result) && t.flow.claim == None
    ensures g.flow.claim == None
  {
    hide EndsIn, RejectionRow;
  }

  /** The rows between: the engine's open attempts are cancelled, the workflow is in progress on the
      volunteer, memberships of other resumes are closed, and the claim is dropped. */
  ghost predicate Readying(f: File, t: File, r: nat) {
    && t.items == f.items && t.runs == f.runs && t.resumes == f.resumes && |t.attempts| == |f.attempts|
    && t.flow == f.flow.(claim := None, status := InProgress, currentResume := Some(r))
    && (forall k | 0 <= k < |f.attempts| ::
          t.attempts[k] == if Cancels(f, |f.attempts|, {Ai, Rule}, k) then f.attempts[k].(status := AttemptCancelled) else f.attempts[k])
    && (forall q: nat :: AppOf(t, q) == AppOf(f, q) ||
          (AppOf(t, q).appStatus == AppCancelled && AppOf(f, q).appStatus !in {AiRejected, DepartmentRejected, ReviewRejected, AppPassed}))
    && |t.memberships| == |f.memberships|
    && forall m | 0 <= m < |f.memberships| ::
         if f.memberships[m].resume == r then t.memberships[m] == f.memberships[m] else t.memberships[m].status in {MemberClosed, MemberRejected}
  }

  lemma ReadyForOutcome(f: File, x: Flight)
    requires OpenApps(f) && LiveFlight(f, x) && Held(f, x)
    ensures var r, a := CurrentOf(f.items[x.item]).value, f.(flow := f.flow.(claim := None));
            var c := CancelAll(a, "rerun", {Ai, Rule});
            && c.Some? && Readying(f, Touch(c.value, r), r)
            && Touch(c.value, r).items == f.items && Touch(c.value, r).flow.claim == None
            && Touch(c.value, r).flow.revision == f.flow.revision
            && r < Touch(c.value, r).resumes && !Closed(AppOf(Touch(c.value, r), r).appStatus)
  {
    hide Current, CancelAll, OpenApps, CloseMembers, Closed;
    var r, a := CurrentOf(f.items[x.item]).value, f.(flow := f.flow.(claim := None));
    OpenAppsSame(f, a);
    CancelledAllRows(a, "rerun", {Ai, Rule});
    var c := CancelAll(a, "rerun", {Ai, Rule}).value;
    OnlyExceptRemains(c, Some(r));
    var t := Touch(c, r);
    NotClosedStatus();
    forall q: nat
      ensures AppOf(t, q) == AppOf(f, q) ||
                (AppOf(t, q).appStatus == AppCancelled && AppOf(f, q).appStatus !in {AiRejected, DepartmentRejected, ReviewRejected, AppPassed})
    {
      assert AppOf(t, q) == AppOf(c, q) && AppOf(a, q) == AppOf(f, q);
      StatusSets(AppOf(f, q).appStatus, PendingReview, Success, Membership(0, MemberClosed, 0));
    }
    assert AppOf(t, r) == AppOf(c, r) && AppOf(a, r) == AppOf(f, r);
    forall k | 0 <= k < |f.attempts|
      ensures t.attempts[k] == if Cancels(f, |f.attempts|, {Ai, Rule}, k) then f.attempts[k].(status := AttemptCancelled) else f.attempts[k]
    {
      assert Cancels(f, |f.attempts|, {Ai, Rule}, k) <==> Cancels(a, |f.attempts|, {Ai, Rule}, k);
    }
  }

  // ----- who has passed -----

  predicate PassedFor(f: File, r: nat) {
    exists a :: 0 <= a < |f.attempts| && f.attempts[a].resume == r && f.attempts[a].status == AttemptPassed
  }

  /** An application has passed exactly if an attempt of its resume has. */
  ghost predicate PassesAgree(f: File) { forall r: nat :: AppOf(f, r).appStatus == AppPassed <==> PassedFor(f, r) }

  /** Nothing passes that had not passed before. */
  ghost predicate NonePasses(a: File, b: File) {
    && (forall r: nat :: AppOf(b, r).appStatus == AppPassed ==> AppOf(a, r).appStatus == AppPassed)
    && forall k | 0 <= k < |b.attempts| && b.attempts[k].status == AttemptPassed :: k < |a.attempts| && a.attempts[k].status == AttemptPassed
  }

  lemma PassesStay(a: File, b: File)
    requires PassesAgree(a) && Moves(a, b) && NonePasses(a, b)
    ensures PassesAgree(b)
  {
    hide Sound, Replay, Mentions;
    forall r: nat ensures AppOf(b, r).appStatus == AppPassed <==> PassedFor(b, r) {
      assert AppMoves(a, b, b.events[|a.events|..], r);
      if PassedFor(b, r) {
        var k :| 0 <= k < |b.attempts| && b.attempts[k].resume == r && b.attempts[k].status == AttemptPassed;
        assert a.attempts[k].resume == r;
      }
      if PassedFor(a, r) {
        var k :| 0 <= k < |a.attempts| && a.attempts[k].resume == r && a.attempts[k].status == AttemptPassed;
        assert b.attempts[k].resume == r && b.attempts[k].status == AttemptPassed;
      }
    }
  }

  lemma QuietPasses(a: File, b: File)
    requires NoneCloses(a, b) && Moves(a, b)
    requires forall k | 0 <= k < |b.attempts| && b.attempts[k].status == AttemptPassed :: k < |a.attempts| && a.attempts[k].status == AttemptPassed
    ensures NonePasses(a, b)
  {
    hide Sound, Replay, Mentions;
    forall r: nat | AppOf(b, r).appStatus == AppPassed ensures AppOf(a, r).appStatus == AppPassed {
      assert Closed(AppOf(b, r).appStatus);
      assert AppMoves(a, b, b.events[|a.events|..], r);
    }
  }

  /** A candidate with no effective attempt has no passed one, and none arises without feedback. */
  lemma AttemptsQuiet(a: File, b: File)
    requires AttemptsMove(a.attempts, b.attempts) && |b.attempts| == |a.attempts| && (b.attempts == a.attempts || !HasEffective(a))
    ensures forall k | 0 <= k < |b.attempts| && b.attempts[k].status == AttemptPassed :: k < |a.attempts| && a.attempts[k].status == AttemptPassed
  {}

  lemma AssignPasses(f: File, resume: nat, department: nat, receives: bool)
    requires Sound(f) && OpenApps(f) && ManualAssign(f, resume, department, receives).Some?
    ensures NonePasses(f, ManualAssign(f, resume, department, receives).value)
  {
    hide ManualAssign, Sound, OpenApps;
    ManualOutcome(f, resume, department, receives);
  }

  lemma AllocatedPasses(f: File, m: nat, department: nat)
    requires Sound(f) && Allocated(f, m, department).Some?
    ensures NonePasses(f, Allocated(f, m, department).value)
  {
    hide Allocated, Sound, NoneCloses, LogMoves;
    AllocatedQuiet(f, m, department);
    AllocatedMoves(f, m, department);
    var g := Allocated(f, m, department).value;
    assert forall k | 0 <= k < |f.attempts| :: g.attempts[k] == g.attempts[..|f.attempts|][k];
    QuietPasses(f, g);
  }

  /** Feedback makes attempt and application pass together; no other action makes either pass. */
  lemma ActingPasses(f: File, a: nat, action: Action, permitted: bool, note: string)
    requires Sound(f) && OpenApps(f) && PassesAgree(f) && Mutate(f, a, action, permitted, note).Some?
    ensures PassesAgree(Mutate(f, a, action, permitted, note).value)
  {
    hide Mutate, Sound, OpenApps;
    ActionOutcome(f, a, action, permitted, note);
    var g := Mutate(f, a, action, permitted, note).value;
    var s := f.attempts[a].resume;
    assert g.attempts[a].resume == s && f.attempts[a].status != AttemptPassed;
    forall r: nat ensures AppOf(g, r).appStatus == AppPassed <==> PassedFor(g, r) {
      OthersPassing(f, g, a, r);
      if r == s && PassedFor(f, r) {
        assert Sound(f);
        OpenMeansNotPassed(f, a);
      }
    }
  }

  lemma OthersPassing(f: File, g: File, a: nat, r: nat)
    requires a < |f.attempts| == |g.attempts| && forall k | 0 <= k < |f.attempts| && k != a :: g.attempts[k] == f.attempts[k]
    requires g.attempts[a].resume == f.attempts[a].resume && f.attempts[a].status != AttemptPassed
    ensures PassedFor(g, r) <==> PassedFor(f, r) || (r == g.attempts[a].resume && g.attempts[a].status == AttemptPassed)
  {
    if PassedFor(f, r) {
      var k :| 0 <= k < |f.attempts| && f.attempts[k].resume == r && f.attempts[k].status == AttemptPassed;
      assert g.attempts[k].resume == r && g.attempts[k].status == AttemptPassed;
    }
    if PassedFor(g, r) {
      var k :| 0 <= k < |g.attempts| && g.attempts[k].resume == r && g.attempts[k].status == AttemptPassed;
      assert k == a || (f.attempts[k].resume == r && f.attempts[k].status == AttemptPassed);
    }
  }

  lemma StoredPasses(f: File, x: Flight, result: Analysis)
    requires Sound(f) && OpenApps(f) && LiveFlight(f, x) && Held(f, x) && !result.Interrupted?
    requires !f.runs[f.items[x.item].run].cancelRequested
    ensures FinishItem(f, x, result).Some? && NonePasses(f, FinishItem(f, x, result).value)
  {
    hide Sound, OpenApps, LiveFlight, FinishItem, Current, RejectionRow, Inactive;
    FinishOutcome(f, x, result);
    var g, r := FinishItem(f, x, result).value, CurrentOf(f.items[x.item]).value;
    var t :| Readying(f, t, r) && Concluded(t, g, x.item, r, result);
    forall q: nat | AppOf(g, q).appStatus == AppPassed ensures AppOf(f, q).appStatus == AppPassed {
      assert q != r && AppOf(g, q) == AppOf(t, q);
    }
  }

  lemma StepPasses(d: Desk, e: Event)
    requires DeskOk(d) && PassesAgree(d.file)
    ensures PassesAgree(Step(d, e).file)
  {
    hide Transaction, Moves, Sound, OpenApps, LiveFlight, PassesAgree, NonePasses, Quiet, NoneCloses, Held;
    if Transaction(d, e).Some? {
      TransactionPasses(d, e);
    }
  }

  lemma TransactionPasses(d: Desk, e: Event)
    requires DeskOk(d) && PassesAgree(d.file) && Transaction(d, e).Some?
    ensures PassesAgree(Transaction(d, e).value)
  {
    hide Sound, ManualAssign, Mutate, EditCandidate, StopRun, PrepareItem, ClaimItem, FinishItem, Allocated, CleanMember;
    hide OpenApps, LiveFlight, Held, Current, Freeze, NoneCloses, NoneQueued, NoneAllocated, HasEffective, LogMoves;
    hide AllClosed, SameSnapshot;
    hide PassesAgree, NonePasses;
    var f, g := d.file, Transaction(d, e).value;
    TransactionMoves(d, e);
    if e.Acting? {
      ActingPasses(f, e.attempt, e.action, e.permitted, e.note);
    } else {
      if e.Assigning? {
        AssignPasses(f, e.resume, e.department, e.receives);
      } else if e.Submitting? {
        SubmitSteady(f, e.force, e.entity, e.details, e.retry);
        QuietPasses(f, g);
      } else if e.Allocating? {
        AllocatedPasses(f, e.member, e.department);
      } else if Outcome(d, e) {
        assert LiveFlight(f, d.flights[e.worker]);
        StoredPasses(f, d.flights[e.worker], e.result);
      } else {
        TransactionQuiet(d, e);
        AttemptsQuiet(f, g);
        QuietPasses(f, g);
      }
      PassesStay(f, g);
    }
  }

  /** In every run of a candidate who started without attempts and without closed applications, an
      application has passed exactly if an attempt of its resume has. */
  lemma {:induction false} PassedTogether(d: Desk, events: seq<Event>, r: nat)
    requires d.file.attempts == [] && d.flights == map[] && d.file.flow.status != WorkflowPassed
    requires forall q: nat :: AppOf(d.file, q).appStatus !in {AiRejected, DepartmentRejected, ReviewRejected, AppPassed}
    ensures var f := Play(d, events).file;
            AppOf(f, r).appStatus == AppPassed <==> exists a :: 0 <= a < |f.attempts| && f.attempts[a].resume == r && f.attempts[a].status == AttemptPassed
  {
    hide Play;
    FreshDeskOk(d);
    assert PassesAgree(d.file);
    PlayPasses(d, events);
  }

  lemma {:induction false} PlayPasses(d: Desk, events: seq<Event>)
    requires DeskOk(d) && PassesAgree(d.file)
    ensures PassesAgree(Play(d, events).file)
    decreases |events|
  {
    hide DeskOk, PassesAgree, Step;
    if events != [] {
      StepPasses(d, events[0]);
      StepStaysOk(d, events[0]);
      PlayPasses(Step(d, events[0]), events[1..]);
    }
  }
}
