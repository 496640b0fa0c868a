/** What the candidate's transactions leave alone, and which of their writes always go through. */
module CandidateWrites {
  import opened AllocationStore
  import opened Preference
  import opened CandidateFile
  import opened CandidateSafety

  // ----- what most transactions leave alone -----

  ghost predicate NoneCloses(a: File, b: File) {
    && a.resumes <= b.resumes
    && forall r: nat :: Closed(AppOf(b, r).appStatus) ==> Closed(AppOf(a, r).appStatus)
  }

  /** The frozen snapshot stays, and a finished item stays finished. */
  ghost predicate SameSnapshot(x: ScopeItem, y: ScopeItem) {
    && y.run == x.run && y.wishes == x.wishes && y.entity == x.entity && y.retry == x.retry
    && (Terminal(x.state) ==> Terminal(y.state))
  }

  ghost predicate RunsKept(a: File, b: File) {
    |b.runs| == |a.runs| && forall k | 0 <= k < |a.runs| :: b.runs[k].force == a.runs[k].force
  }

  ghost predicate ItemsKept(a: File, b: File) {
    && RunsKept(a, b) && |a.items| <= |b.items|
    && forall i | 0 <= i < |a.items| :: SameSnapshot(a.items[i], b.items[i])
  }

  /** The same when a run may have been submitted. */
  ghost predicate ItemsGrow(a: File, b: File) {
    && |a.runs| <= |b.runs| && |a.items| <= |b.items|
    && forall i | 0 <= i < |a.items| :: SameSnapshot(a.items[i], b.items[i])
  }

  predicate Queued(m: Membership) { m.status == PendingAllocation || m.status == MemberAllocated }

  /** No membership becomes allocated, and none becomes queued. */
  ghost predicate NoneAllocated(a: File, b: File) {
    forall m | 0 <= m < |b.memberships| && b.memberships[m].status == MemberAllocated ::
      m < |a.memberships| && a.memberships[m].status == MemberAllocated && a.memberships[m].resume == b.memberships[m].resume
  }

  ghost predicate NoneQueued(a: File, b: File) {
    forall m | 0 <= m < |b.memberships| && Queued(b.memberships[m]) :: m < |a.memberships| && Queued(a.memberships[m])
  }

  ghost predicate Quiet(a: File, b: File) { NoneCloses(a, b) && ItemsKept(a, b) && NoneAllocated(a, b) && NoneQueued(a, b) }

  lemma QuietNot(f: File)
    ensures Quiet(f, f)
  {}

  lemma QuietOn(a: File, b: File, c: File)
    requires Quiet(a, b) && Quiet(b, c)
    ensures Quiet(a, c)
  {
    hide Closed, Terminal;
    forall i | 0 <= i < |a.items| ensures SameSnapshot(a.items[i], c.items[i]) {
      assert SameSnapshot(a.items[i], b.items[i]) && SameSnapshot(b.items[i], c.items[i]);
    }
  }

  /** Steps that do not touch the applications. */
  lemma QuietAside(a: File, b: File)
    requires b.apps == a.apps && a.resumes <= b.resumes && ItemsKept(a, b) && NoneAllocated(a, b) && NoneQueued(a, b)
    ensures Quiet(a, b)
  {
    hide ItemsKept, NoneAllocated, NoneQueued;
  }

  lemma SameRowsKept(a: File, b: File)
    requires b.items == a.items && b.runs == a.runs
    ensures ItemsKept(a, b)
  {}

  lemma SetQuiet(f: File, r: nat, status: AppStatus, reason: string)
    requires !Closed(status) && SetApplication(f, r, status, reason).Some?
    ensures Quiet(f, SetApplication(f, r, status, reason).value)
  {
    hide LogMoves;
    SetApplicationMoves(f, r, status, reason);
    SameRowsKept(f, SetApplication(f, r, status, reason).value);
  }

  /** Setting an open status is refused only for a resume the candidate does not have or an
      application that is closed. */
  lemma OpenStatusGoes(f: File, r: nat, status: AppStatus, reason: string)
    requires !Closed(status)
    ensures SetApplication(f, r, status, reason).Some? <==> r < f.resumes && !Closed(AppOf(f, r).appStatus)
  {}

  /** No active membership of another resume remains; the others stay as they are. */
  lemma OnlyExceptRemains(f: File, except: Option<nat>)
    ensures var after := CloseMembers(f, except);
            && after == f.(memberships := after.memberships) && |after.memberships| == |f.memberships|
            && (forall m | 0 <= m < |f.memberships| ::
                  && (ActiveMember(after.memberships[m]) <==> ActiveMember(f.memberships[m]) && except == Some(f.memberships[m].resume))
                  && (ActiveMember(after.memberships[m]) || !ActiveMember(f.memberships[m]) ==> after.memberships[m] == f.memberships[m])
                  && after.memberships[m].resume == f.memberships[m].resume)
            && CloseMembers(after, except) == after
  {
    var after := CloseMembers(f, except);
    assert CloseMembers(after, except).memberships == after.memberships;
  }

  lemma CloseQuiet(f: File, except: Option<nat>)
    ensures Quiet(f, CloseMembers(f, except))
    ensures except == None ==> !HasAllocated(CloseMembers(f, except))
  {
    hide CloseMembers, Closed;
    OnlyExceptRemains(f, except);
    QuietAside(f, CloseMembers(f, except));
  }

  predicate HasAllocated(f: File) { exists m :: 0 <= m < |f.memberships| && f.memberships[m].status == MemberAllocated }

  lemma StaysUnallocated(a: File, b: File)
    requires NoneAllocated(a, b) && !HasAllocated(a)
    ensures !HasAllocated(b)
  {}

  /** The workflow moves to the resume: from then on only that resume's memberships are active,
      and the revision is not touched. */
  lemma TouchMakesCurrent(f: File, r: nat)
    ensures var after := Touch(f, r);
            && after.flow == f.flow.(status := InProgress, currentResume := Some(r))
            && (forall m | 0 <= m < |after.memberships| && ActiveMember(after.memberships[m]) :: after.memberships[m].resume == r)
            && Touch(after, r) == after
  {
    hide CloseMembers;
    OnlyExceptRemains(f, Some(r));
    var after := Touch(f, r);
    OnlyExceptRemains(after, Some(r));
    assert CloseMembers(after, Some(r)).memberships == after.memberships;
  }

  lemma TouchQuiet(f: File, r: nat)
    ensures Quiet(f, Touch(f, r))
  {
    hide Quiet, CloseMembers;
    CloseQuiet(f, Some(r));
    FlowQuiet(CloseMembers(f, Some(r)), Touch(f, r));
    QuietOn(f, CloseMembers(f, Some(r)), Touch(f, r));
  }

  /** Only the workflow row, the attempts, the clock or the tokens change. */
  lemma FlowQuiet(a: File, b: File)
    requires b == a.(flow := b.flow, attempts := b.attempts, now := b.now, nextToken := b.nextToken)
    ensures Quiet(a, b)
  {
    SameRowsKept(a, b);
    QuietAside(a, b);
  }

  lemma ArchiveQuiet(f: File)
    ensures Quiet(f, Archive(f)) && !HasAllocated(Archive(f)) && Archive(f).attempts == f.attempts
  {
    hide Quiet, CloseMembers;
    CloseQuiet(f, None);
    OnlyExceptRemains(f, None);
    FlowQuiet(CloseMembers(f, None), Archive(f));
    QuietOn(f, CloseMembers(f, None), Archive(f));
  }

  lemma TalentQuiet(f: File)
    ensures Quiet(f, ToTalentPool(f)) && ToTalentPool(f).attempts == f.attempts
  {
    hide Quiet, CloseMembers, Remaining;
    CloseQuiet(f, None);
    OnlyExceptRemains(f, None);
    FlowQuiet(f, WaitForNext(f));
    if !Remaining(f) {
      FlowQuiet(CloseMembers(f, None), ToTalentPool(f));
      QuietOn(f, CloseMembers(f, None), ToTalentPool(f));
    }
  }

  lemma DepartmentQuiet(f: File)
    ensures Quiet(f, AfterDepartmentRejection(f)) && !HasAllocated(AfterDepartmentRejection(f))
  {
    hide Quiet, CloseMembers, Remaining, ToTalentPool;
    CloseQuiet(f, None);
    var g := CloseMembers(f, None);
    FlowQuiet(g, WaitForNext(g));
    TalentQuiet(g);
    QuietOn(f, g, AfterDepartmentRejection(f));
    assert NoneAllocated(g, AfterDepartmentRejection(f)) by { QuietParts(g, AfterDepartmentRejection(f)); }
    StaysUnallocated(g, AfterDepartmentRejection(f));
  }

  lemma QuietParts(a: File, b: File)
    requires Quiet(a, b)
    ensures NoneCloses(a, b) && ItemsKept(a, b) && NoneAllocated(a, b) && NoneQueued(a, b)
  {}

  /** One item changes its state only. */
  lemma ItemStateQuiet(f: File, i: nat, state: ItemState)
    requires i < |f.items| && (Terminal(f.items[i].state) ==> Terminal(state))
    ensures Quiet(f, SetItem(f, i, state))
  {
    QuietAside(f, SetItem(f, i, state));
  }

  lemma EndedQuiet(f: File, i: nat, state: ItemState)
    requires Terminal(state)
    ensures Quiet(f, Ended(f, i, state)) && Ended(f, i, state).attempts == f.attempts
  {
    hide Quiet, Terminal;
    QuietNot(f);
    if i < |f.items| {
      ItemStateQuiet(f, i, state);
    }
  }

  // ----- cancelling -----

  lemma {:induction false} CancelOpenQuiet(f: File, n: nat, reason: string, sources: set<Source>)
    requires n <= |f.attempts| && CancelOpen(f, n, reason, sources).Some?
    ensures Quiet(f, CancelOpen(f, n, reason, sources).value)
    ensures forall k | 0 <= k < n && CancelOpen(f, n, reason, sources).value.attempts[k].source in sources ::
              !OpenStatus(CancelOpen(f, n, reason, sources).value.attempts[k].status)
  {
    hide Quiet, SetApplication, LogMoves;
    if n == 0 {
      QuietNot(f);
    } else {
      CancelOpenQuiet(f, n - 1, reason, sources);
      var g := CancelOpen(f, n - 1, reason, sources).value;
      var at := g.attempts[n - 1];
      if OpenStatus(at.status) && (sources == {} || at.source in sources) {
        var h := g.(attempts := g.attempts[n - 1 := at.(status := AttemptCancelled)]);
        FlowQuiet(g, h);
        SetQuiet(h, at.resume, AppCancelled, reason);
        SetApplicationMoves(h, at.resume, AppCancelled, reason);
        QuietOn(f, g, h);
        QuietOn(f, h, SetApplication(h, at.resume, AppCancelled, reason).value);
      }
    }
  }

  lemma CancelAllQuiet(f: File, reason: string, sources: set<Source>)
    requires CancelAll(f, reason, sources).Some?
    ensures Quiet(f, CancelAll(f, reason, sources).value)
  {
    CancelOpenQuiet(f, |f.attempts|, reason, sources);
  }

  /** The applications of open attempts are open themselves. */
  ghost predicate OpenApps(f: File) {
    forall k | 0 <= k < |f.attempts| && OpenStatus(f.attempts[k].status) ::
      f.attempts[k].resume < f.resumes && !Closed(AppOf(f, f.attempts[k].resume).appStatus)
  }

  /** Hence cancelling attempts always goes through. */
  lemma {:induction false} CancelGoes(f: File, n: nat, reason: string, sources: set<Source>)
    requires n <= |f.attempts| && OpenApps(f)
    ensures CancelOpen(f, n, reason, sources).Some?
  {
    hide Quiet, SetApplication, LogMoves, Closed;
    if n > 0 {
      CancelGoes(f, n - 1, reason, sources);
      CancelOpenShape(f, n - 1, reason, sources);
      CancelOpenQuiet(f, n - 1, reason, sources);
      var g := CancelOpen(f, n - 1, reason, sources).value;
      QuietParts(f, g);
      var at := g.attempts[n - 1];
      assert at == f.attempts[n - 1];
      var h := g.(attempts := g.attempts[n - 1 := at.(status := AttemptCancelled)]);
      FlowQuiet(g, h);
      QuietParts(g, h);
      NotClosedStatus();
      OpenStatusGoes(h, at.resume, AppCancelled, reason);
    }
  }

  lemma NotClosedStatus()
    ensures !Closed(AppCancelled) && !Closed(Blocked) && !Closed(Assessing) && !Closed(AppPendingDispatch)
    ensures !Closed(AppPendingAllocation) && !Closed(AppNeedsReanalysis) && !Closed(DepartmentReview)
  {}

  lemma OpenAppsKept(a: File, b: File)
    requires OpenApps(a) && NoneCloses(a, b) && AttemptsMove(a.attempts, b.attempts) && |b.attempts| == |a.attempts|
    ensures OpenApps(b)
  {
    hide Closed;
  }

  lemma NothingOpen(f: File)
    requires !HasEffective(f)
    ensures OpenApps(f)
  {}

  lemma CreateQuiet(f: File, resume: nat, source: Source, department: nat, reason: string)
    requires CreateAttempt(f, resume, source, department, reason).Some?
    ensures var g := CreateAttempt(f, resume, source, department, reason).value;
            && Quiet(f, g) && g.attempts == f.attempts + [Assignment(resume, source, PendingDispatch, department, None, false)]
            && resume < g.resumes && !Closed(AppOf(g, resume).appStatus)
  {
    hide Quiet, SetApplication, LogMoves, Touch;
    var mid := f.(attempts := f.attempts + [Assignment(resume, source, PendingDispatch, department, None, false)]);
    FlowQuiet(f, mid);
    TouchQuiet(mid, resume);
    TouchRows(mid, resume);
    SetQuiet(Touch(mid, resume), resume, AppPendingDispatch, reason);
    SetApplicationMoves(Touch(mid, resume), resume, AppPendingDispatch, reason);
    OpenStatusGoes(Touch(mid, resume), resume, AppPendingDispatch, reason);
    QuietOn(f, mid, Touch(mid, resume));
    QuietOn(f, Touch(mid, resume), CreateAttempt(f, resume, source, department, reason).value);
  }

  lemma TouchRows(f: File, r: nat)
    ensures var g := Touch(f, r);
            g.attempts == f.attempts && g.resumes == f.resumes && g.apps == f.apps && g.items == f.items && g.runs == f.runs
            && g.flow.revision == f.flow.revision && g.flow.claim == f.flow.claim && g.flow.currentResume == Some(r)
            && g.flow.status == InProgress
  {}

  // ----- the transactions -----

  lemma AssignQuiet(f: File, resume: nat, department: nat, receives: bool)
    requires Sound(f) && ManualAssign(f, resume, department, receives).Some?
    ensures var g := ManualAssign(f, resume, department, receives).value;
            Quiet(f, g) && OpenApps(g) && !HasAllocated(g)
  {
    hide Quiet, Sound, Moves, CancelAll, CreateAttempt, CloseMembers, OpenApps;
    var a := Invalidate(f);
    FlowQuiet(f, a);
    InvalidateMoves(f);
    SoundAfter(f, a);
    NotPassed(a);
    CancelAllQuiet(a, "manual_replaced", {});
    CancelAllMoves(a, "manual_replaced", {});
    var b := CancelAll(a, "manual_replaced", {}).value;
    CloseQuiet(b, None);
    var c := CloseMembers(b, None);
    OnlyExceptRemains(b, None);
    CreateQuiet(c, resume, Manual, department, "manual");
    var g := CreateAttempt(c, resume, Manual, department, "manual").value;
    QuietOn(f, a, b);
    QuietOn(f, b, c);
    QuietOn(f, c, g);
    EffectiveSame(b, c);
    CreatedOpen(c, g);
    QuietParts(c, g);
    StaysUnallocated(c, g);
  }

  /** The new attempt is the only one that may be open. */
  lemma CreatedOpen(f: File, g: File)
    requires !HasEffective(f) && |g.attempts| == |f.attempts| + 1 && g.attempts[..|f.attempts|] == f.attempts
    requires var at := g.attempts[|f.attempts|]; at.resume < g.resumes && !Closed(AppOf(g, at.resume).appStatus)
    ensures OpenApps(g)
  {
    hide Closed;
    assert forall k | 0 <= k < |f.attempts| :: g.attempts[k] == g.attempts[..|f.attempts|][k];
  }

  /** An action on an attempt: without feedback no application is closed; after feedback no attempt
      is open; when it ends the attempt, no membership is allocated unless the candidate passed. */
  lemma MutateQuiet(f: File, a: nat, action: Action, permitted: bool, note: string)
    requires Sound(f) && OpenApps(f) && Mutate(f, a, action, permitted, note).Some?
    ensures var g := Mutate(f, a, action, permitted, note).value;
            && ItemsKept(f, g) && NoneAllocated(f, g) && OpenApps(g)
            && (HasAllocated(g) ==> |g.attempts| == |f.attempts| && EffectiveStatus(g.attempts[a].status) && g.attempts[a].source == f.attempts[a].source)
  {
    hide Quiet, Sound, Moves, CancelAll, CloseMembers, OpenApps, SetApplication, AfterDepartmentRejection, Closed;
    hide AttemptsMove, OneEffective, HasPassed, LogMoves;
    var at := Acted(f.attempts[a], action).value;
    var mid := Invalidate(f).(attempts := f.attempts[a := at]);
    FlowQuiet(f, mid);
    SoundParts(f);
    OpenMeansNotPassed(f, a);
    AttemptReplaced(f, a, at);
    NotClosedStatus();
    match action
    case Feedback(passed, comment) => FeedbackQuiet(f, a, at, mid, passed, comment);
    case CancelAttempt(cause) =>
      SetQuiet(mid, at.resume, AppCancelled, cause);
      SetApplicationMoves(mid, at.resume, AppCancelled, cause);
      var g := SetApplication(mid, at.resume, AppCancelled, cause).value;
      QuietOn(f, mid, g);
      ArchiveQuiet(g);
      QuietOn(f, g, Archive(g));
      NobodyElse(f, a, g);
      NothingOpen(g);
      assert !HasOpen(g);
      QuietParts(f, Archive(g));
      OnlyExceptRemains(g, None);
      EffectiveSame(g, Archive(g));
      NothingOpen(Archive(g));
    case _ =>
      SetQuiet(mid, at.resume, if at.status == Dispatched then DepartmentReview else AppPendingDispatch, note);
      SetApplicationMoves(mid, at.resume, if at.status == Dispatched then DepartmentReview else AppPendingDispatch, note);
      var g := Mutate(f, a, action, permitted, note).value;
      QuietOn(f, mid, g);
      QuietParts(f, g);
      OpenAppsKept(f, g);
  }

  lemma SoundParts(f: File)
    requires Sound(f)
    ensures OneEffective(f.attempts)
  {}

  /** When the effective attempt ends, none is left. */
  lemma NobodyElse(f: File, a: nat, g: File)
    requires OneEffective(f.attempts) && a < |f.attempts| && EffectiveStatus(f.attempts[a].status)
    requires |g.attempts| == |f.attempts| && g.attempts == f.attempts[a := g.attempts[a]] && !EffectiveStatus(g.attempts[a].status)
    ensures !HasEffective(g) && !HasOpen(g)
  {}

  lemma FeedbackQuiet(f: File, a: nat, at: Assignment, mid: File, passed: bool, comment: string)
    requires Sound(f) && a < |f.attempts| && Acted(f.attempts[a], Feedback(passed, comment)) == Some(at)
    requires mid == Invalidate(f).(attempts := f.attempts[a := at]) && Answered(mid, a, at.resume, passed, comment).Some?
    ensures var g := Answered(mid, a, at.resume, passed, comment).value;
            && ItemsKept(f, g) && NoneAllocated(f, g) && OpenApps(g)
            && (HasAllocated(g) ==> |g.attempts| == |f.attempts| && EffectiveStatus(g.attempts[a].status) && g.attempts[a].source == f.attempts[a].source)
  {
    hide Quiet, Sound, Moves, CloseMembers, OpenApps, SetApplication, AfterDepartmentRejection, Closed, OneEffective;
    hide HasPassed, LogMoves;
    SoundParts(f);
    var s := SetApplication(mid, at.resume, if passed then AppPassed else DepartmentRejected, comment).value;
    SetApplicationMoves(mid, at.resume, if passed then AppPassed else DepartmentRejected, comment);
    SameRowsKept(f, s);
    if passed {
      var h := s.(flow := s.flow.(status := WorkflowPassed, passedAttempt := Some(a)));
      OnlyPassed(f, a, h);
      CancelOpenShape(h, |h.attempts|, "workflow_passed", {});
      var g := CancelAll(h, "workflow_passed", {}).value;
      SameRowsKept(f, g);
      assert OnlyCancelled(h.attempts, g.attempts);
      assert g.attempts[a] == h.attempts[a];
      NoOpenApps(g);
    } else {
      DepartmentQuiet(s);
      QuietParts(s, AfterDepartmentRejection(s));
      NobodyElse(f, a, s);
      DepartmentRows(s);
      KeptOn(f, s, AfterDepartmentRejection(s));
      EffectiveSame(s, AfterDepartmentRejection(s));
      NothingOpen(AfterDepartmentRejection(s));
    }
  }

  lemma NoOpenApps(f: File)
    requires forall k | 0 <= k < |f.attempts| :: !OpenStatus(f.attempts[k].status)
    ensures OpenApps(f)
  {}

  lemma OnlyPassed(f: File, a: nat, h: File)
    requires OneEffective(f.attempts) && a < |f.attempts| && EffectiveStatus(f.attempts[a].status)
    requires |h.attempts| == |f.attempts| && h.attempts == f.attempts[a := h.attempts[a]] && h.attempts[a].status == AttemptPassed
    ensures forall k | 0 <= k < |h.attempts| :: !OpenStatus(h.attempts[k].status)
  {}

  lemma KeptOn(a: File, b: File, c: File)
    requires ItemsKept(a, b) && ItemsKept(b, c)
    ensures ItemsKept(a, c)
  {
    hide Terminal;
    forall i | 0 <= i < |a.items| ensures SameSnapshot(a.items[i], c.items[i]) {
      assert SameSnapshot(a.items[i], b.items[i]) && SameSnapshot(b.items[i], c.items[i]);
    }
  }

  lemma DepartmentRows(f: File)
    ensures AfterDepartmentRejection(f).attempts == f.attempts && AfterDepartmentRejection(f).resumes == f.resumes
    ensures AfterDepartmentRejection(f).apps == f.apps
  {}

  lemma {:induction false} StaleAppsQuiet(f: File, n: nat)
    requires n <= f.resumes && StaleApps(f, n).Some?
    ensures var g := StaleApps(f, n).value; Quiet(f, g) && g.attempts == f.attempts && g == f.(apps := g.apps, events := g.events)
    decreases n
  {
    hide Quiet, SetApplication, LogMoves;
    if n == 0 {
      QuietNot(f);
    } else {
      StaleAppsQuiet(f, n - 1);
      var g := StaleApps(f, n - 1).value;
      if AppOf(g, n - 1).appStatus == Assessing {
        SetQuiet(g, n - 1, Blocked, "candidate_changed");
        SetApplicationMoves(g, n - 1, Blocked, "candidate_changed");
        QuietOn(f, g, SetApplication(g, n - 1, Blocked, "candidate_changed").value);
      }
    }
  }

  lemma RestateQuiet(f: File, m: nat, reason: string)
    requires m < |f.memberships| && Restate(f, m, reason).Some?
    ensures Quiet(f, Restate(f, m, reason).value) && Restate(f, m, reason).value.attempts == f.attempts
  {
    hide SetApplication, LogMoves, Closed, ItemsKept, NoneCloses;
    var row := f.memberships[m];
    var mid := f.(memberships := f.memberships[m := row.(status := NeedsReanalysis, revision := row.revision + 1)]);
    SameRowsKept(f, mid);
    QuietAside(f, mid);
    NotClosedStatus();
    SetQuiet(mid, row.resume, AppNeedsReanalysis, reason);
    SetApplicationMoves(mid, row.resume, AppNeedsReanalysis, reason);
    QuietOn(f, mid, Restate(f, m, reason).value);
  }

  lemma ReconfigureQuiet(f: File, m: nat)
    requires Reconfigure(f, m).Some?
    ensures Quiet(f, Reconfigure(f, m).value) && Reconfigure(f, m).value.attempts == f.attempts
  {
    hide NoneCloses, ItemsKept;
    var g := Reconfigure(f, m).value;
    SameRowsKept(f, g);
    QuietAside(f, g);
  }

  lemma PoolQuiet(f: File, m: nat, retag: bool, permitted: bool)
    requires PoolAction(f, m, retag, permitted).Some?
    ensures var g := PoolAction(f, m, retag, permitted).value; Quiet(f, g) && g.attempts == f.attempts
  {
    hide NoneCloses, ItemsKept;
    var g := PoolAction(f, m, retag, permitted).value;
    SameRowsKept(f, g);
    QuietAside(f, g);
  }

  lemma {:induction false} StaleMembersQuiet(f: File, n: nat)
    requires n <= |f.memberships| && StaleMembers(f, n).Some?
    ensures Quiet(f, StaleMembers(f, n).value) && StaleMembers(f, n).value.attempts == f.attempts
    decreases n
  {
    hide Quiet, Restate;
    if n == 0 {
      QuietNot(f);
    } else {
      StaleMembersQuiet(f, n - 1);
      var g := StaleMembers(f, n - 1).value;
      if g.memberships[n - 1].status == PendingAllocation {
        RestateQuiet(g, n - 1, "candidate_changed");
        QuietOn(f, g, Restate(g, n - 1, "candidate_changed").value);
      }
    }
  }

  lemma EditQuiet(f: File)
    requires EditCandidate(f).Some?
    ensures Quiet(f, EditCandidate(f).value) && EditCandidate(f).value.attempts == f.attempts
  {
    hide Quiet, StaleMembers;
    FlowQuiet(f, Invalidate(f));
    StaleAppsQuiet(Invalidate(f), f.resumes);
    var g := StaleApps(Invalidate(f), f.resumes).value;
    StaleMembersQuiet(g, |g.memberships|);
    QuietOn(f, Invalidate(f), g);
    QuietOn(f, g, EditCandidate(f).value);
  }

  lemma RetainedQuiet(f: File, force: bool)
    requires Retained(f, force).Some?
    ensures Quiet(f, Retained(f, force).value) && Retained(f, force).value.attempts == f.attempts
    ensures Retained(f, force).value.memberships == f.memberships
  {
    hide Quiet;
    QuietNot(f);
    FlowQuiet(f, Invalidate(f));
  }

  lemma AdmitQuiet(f: File, i: nat, r: nat, force: bool, v: Verdict)
    requires i < |f.items| && Admit(f, i, r, force, v).Some?
    ensures Quiet(f, Admit(f, i, r, force, v).value) && |Admit(f, i, r, force, v).value.attempts| == |f.attempts|
  {
    hide Quiet, CancelAll, Touch, Archive, Ended;
    QuietNot(f);
    var g := f;
    if force {
      CancelAllQuiet(f, "rerun", {Ai, Rule});
      var c := CancelAll(f, "rerun", {Ai, Rule}).value;
      g := c.(flow := c.flow.(status := InProgress, passedAttempt := None));
      FlowQuiet(c, g);
      QuietOn(f, c, g);
    }
    if !v.admitted {
      CancelAllQuiet(g, "rerun", {});
      var h := CancelAll(g, "rerun", {}).value;
      QuietOn(f, g, h);
      TouchQuiet(h, r);
      TouchRows(h, r);
      QuietOn(f, h, Touch(h, r));
      ArchiveQuiet(Touch(h, r));
      QuietOn(f, Touch(h, r), Archive(Touch(h, r)));
      EndedQuiet(Archive(Touch(h, r)), i, Success);
      QuietOn(f, Archive(Touch(h, r)), Ended(Archive(Touch(h, r)), i, Success));
    }
  }

  lemma MatchQuiet(f: File, i: nat, r: nat, v: Verdict)
    requires i < |f.items| && MatchJob(f, i, r, v).Some?
    ensures Quiet(f, MatchJob(f, i, r, v).value) && |MatchJob(f, i, r, v).value.attempts| == |f.attempts|
  {
    hide Quiet, CancelAll, Touch, Archive, Ended, SetApplication, CloseMembers, LogMoves;
    QuietNot(f);
    if !v.ready {
      CancelAllQuiet(f, "rerun", {});
      var g := CancelAll(f, "rerun", {}).value;
      TouchQuiet(g, r);
      TouchRows(g, r);
      var h := Touch(g, r);
      QuietOn(f, g, h);
      var k := Archive(h);
      if v.unavailable {
        CloseQuiet(h, None);
        OnlyExceptRemains(h, None);
        var m := CloseMembers(h, None);
        QuietOn(f, h, m);
        SetQuiet(m, r, Blocked, "unavailable");
        SetApplicationMoves(m, r, Blocked, "unavailable");
        k := SetApplication(m, r, Blocked, "unavailable").value;
        QuietOn(f, m, k);
      } else {
        ArchiveQuiet(h);
        QuietOn(f, h, k);
      }
      EndedQuiet(k, i, NeedsAttention);
      QuietOn(f, k, Ended(k, i, NeedsAttention));
    }
  }

  /** A preparation that goes beyond keeping the present state finds no effective attempt. */
  lemma PrepareQuiet(f: File, i: nat, stage: Stage, v: Verdict)
    requires PrepareItem(f, i, stage, v).Some?
    ensures var g := PrepareItem(f, i, stage, v).value;
            Quiet(f, g) && |g.attempts| == |f.attempts| && (g.attempts == f.attempts || !HasEffective(f))
  {
    hide Quiet, Retained, Admit, MatchJob, RevisionChanged, SetItem, ToTalentPool, HasEffective, Current;
    QuietNot(f);
    if !Terminal(f.items[i].state) {
      SetRows(f, i, Skipped);
      SetRows(f, i, NeedsAttention);
      ItemStateQuiet(f, i, Skipped);
      ItemStateQuiet(f, i, NeedsAttention);
      var force := f.runs[f.items[i].run].force;
      if Retained(f, force).Some? {
        var kept := Retained(f, force).value;
        RetainedQuiet(f, force);
        RetainedItems(f, force);
        ItemStateQuiet(kept, i, Success);
        SetRows(kept, i, Success);
        QuietOn(f, kept, SetItem(kept, i, Success));
      } else {
        RetainedMeans(f, force);
        TalentQuiet(f);
        TalentItems(f);
        ItemStateQuiet(ToTalentPool(f), i, Success);
        SetRows(ToTalentPool(f), i, Success);
        QuietOn(f, ToTalentPool(f), SetItem(ToTalentPool(f), i, Success));
        if CurrentOf(f.items[i]).Some? && !RevisionChanged(f.items[i], f.flow) && !(LeaseLive(f) && f.flow.claim.value.item != i) {
          var r := CurrentOf(f.items[i]).value;
          if stage == Admission {
            AdmitQuiet(f, i, r, force, v);
          } else {
            MatchQuiet(f, i, r, v);
          }
        }
      }
    }
  }

  lemma SetRows(f: File, i: nat, state: ItemState)
    requires i < |f.items|
    ensures SetItem(f, i, state) == f.(items := SetItem(f, i, state).items)
  {}

  lemma RetainedMeans(f: File, force: bool)
    requires Retained(f, force).None?
    ensures !HasEffective(f)
    ensures !force ==> forall m | 0 <= m < |f.memberships| :: f.memberships[m].status != PendingAllocation
  {}

  /** A claim does not touch attempts or memberships; its volunteer's application is open. */
  lemma ClaimQuiet(f: File, i: nat)
    requires ClaimItem(f, i).Some?
    ensures var (g, x) := ClaimItem(f, i).value;
            && Quiet(f, g) && g.attempts == f.attempts && g.memberships == f.memberships
            && (x.Some? ==>
                  && i < |g.items| && g.items[i].run < |g.runs| && !HasEffective(f) && CurrentOf(g.items[i]).Some?
                  && CurrentOf(g.items[i]).value < g.resumes && !Closed(AppOf(g, CurrentOf(g.items[i]).value).appStatus)
                  && (!g.runs[g.items[i].run].force ==> forall m | 0 <= m < |g.memberships| :: g.memberships[m].status != PendingAllocation))
  {
    hide Quiet, Retained, RevisionChanged, SetApplication, HasEffective, Current, Closed, LogMoves;
    QuietNot(f);
    NotClosedStatus();
    if !Terminal(f.items[i].state) {
      var force := f.runs[f.items[i].run].force;
      ItemStateQuiet(f, i, Skipped);
      ItemStateQuiet(f, i, WaitingConflict);
      if Retained(f, force).Some? {
        var kept := Retained(f, force).value;
        RetainedQuiet(f, force);
        EndedQuiet(kept, i, Success);
        QuietOn(f, kept, Ended(kept, i, Success));
      } else {
        RetainedMeans(f, force);
        if !RevisionChanged(f.items[i], f.flow) && !LeaseLive(f) && CurrentOf(f.items[i]).Some? {
          var r := CurrentOf(f.items[i]).value;
          SetQuiet(f, r, Assessing, "assessing");
          SetApplicationMoves(f, r, Assessing, "assessing");
          OpenStatusGoes(f, r, Assessing, "assessing");
          var g := SetApplication(f, r, Assessing, "assessing").value;
          var h := g.(nextToken := f.nextToken + 1,
                      flow := g.flow.(claim := Some(ProcessingClaim(i, f.nextToken, f.now + CLAIM_TIME))));
          FlowQuiet(g, h);
          QuietOn(f, g, h);
          ItemStateQuiet(h, i, Processing);
          QuietOn(f, h, ClaimItem(f, i).value.0);
        }
      }
    }
  }

  /** An allocation adds one AI attempt of an open application and allocates one pending membership. */
  lemma AllocatedQuiet(f: File, m: nat, department: nat)
    requires Allocated(f, m, department).Some?
    ensures var g := Allocated(f, m, department).value;
            && NoneCloses(f, g) && ItemsKept(f, g) && NoneQueued(f, g) && OpenApps(g)
            && |g.attempts| == |f.attempts| + 1 && g.attempts[..|f.attempts|] == f.attempts
            && g.attempts[|f.attempts|].source == Ai && g.attempts[|f.attempts|].status == PendingDispatch
  {
    hide CreateAttempt, HasEffective, Closed, ItemsKept, NoneAllocated;
    var row := f.memberships[m];
    CreateQuiet(f, row.resume, Ai, department, "allocated");
    var c := CreateAttempt(f, row.resume, Ai, department, "allocated").value;
    var g := Allocated(f, m, department).value;
    SameRowsKept(c, g);
    KeptOn(f, c, g);
    CreatedOpen(f, g);
    if 0 <= m < |f.memberships| {
      assert Queued(row);
    }
  }

  lemma StopQuiet(f: File, run: nat, cancelled: bool)
    requires StopRun(f, run, cancelled).Some?
    ensures Quiet(f, StopRun(f, run, cancelled).value) && StopRun(f, run, cancelled).value.attempts == f.attempts
  {
    hide Quiet, SetApplication, Current, LogMoves;
    var stopped := f.(items := Update(f.items, (i: ScopeItem) =>
      if i.run == run && !Terminal(i.state) then i.(state := if cancelled then ItemStopped else ItemError) else i));
    assert ItemsKept(f, stopped);
    QuietAside(f, stopped);
    if ClaimedByRun(f, run) {
      var released := stopped.(flow := f.flow.(claim := None));
      FlowQuiet(stopped, released);
      QuietOn(f, stopped, released);
      if CurrentOf(f.items[f.flow.claim.value.item]).Some? {
        var r := CurrentOf(f.items[f.flow.claim.value.item]).value;
        if AppOf(f, r).appStatus == Assessing {
          SetQuiet(released, r, Blocked, "stopped");
          SetApplicationMoves(released, r, Blocked, "stopped");
          QuietOn(f, released, StopRun(f, run, cancelled).value);
        }
      }
    }
  }

  // ----- storing an analysis -----

  /** A claim taken at the present revision: its item and run exist, the current volunteer's
      application is open, and no attempt is effective but the engine's own. */
  ghost predicate LiveFlight(f: File, x: Flight) {
    x.revision == f.flow.revision ==>
      && x.item < |f.items| && f.items[x.item].run < |f.runs| && CurrentOf(f.items[x.item]).Some?
      && CurrentOf(f.items[x.item]).value < f.resumes && !Closed(AppOf(f, CurrentOf(f.items[x.item]).value).appStatus)
      && forall k | 0 <= k < |f.attempts| && EffectiveStatus(f.attempts[k].status) ::
           OpenStatus(f.attempts[k].status) && f.attempts[k].source != Manual
  }

  /** New attempts come from the allocation engine. */
  ghost predicate NewByEngine(a: File, b: File) {
    && |a.attempts| <= |b.attempts|
    && forall k | |a.attempts| <= k < |b.attempts| :: b.attempts[k].source == Ai && b.attempts[k].status == PendingDispatch
  }

  ghost predicate Steady(a: File, b: File) { NoneCloses(a, b) && ItemsGrow(a, b) && NoneQueued(a, b) && NewByEngine(a, b) }

  lemma LiveKept(a: File, b: File, x: Flight)
    requires LiveFlight(a, x) && x.revision <= a.flow.revision && Moves(a, b)
    requires a.flow.status == WorkflowPassed ==> x.revision < a.flow.revision
    requires b.flow.revision == a.flow.revision ==> Steady(a, b)
    ensures LiveFlight(b, x)
  {
    hide Current, Closed, Sound, LogMoves, Terminal;
    if x.revision == b.flow.revision {
      assert SameSnapshot(a.items[x.item], b.items[x.item]);
      NotPassed(b);
    }
  }

  /** The finished analysis may still write: its item is not finished, and its claim and revision
      are those taken. */
  predicate Held(f: File, x: Flight) {
    && x.item < |f.items| && f.items[x.item].run < |f.runs|
    && !Terminal(f.items[x.item].state) && Holds(f, x) && f.flow.revision == x.revision
  }

  lemma StatusGoes(f: File, r: nat, status: AppStatus, reason: string)
    requires r < f.resumes && !Closed(AppOf(f, r).appStatus)
    ensures SetApplication(f, r, status, reason).Some?
  {}

  /** The rows just before the outcome is stored. */
  lemma Readied(f: File, x: Flight)
    requires OpenApps(f) && LiveFlight(f, x) && Held(f, x)
    ensures var r, g := CurrentOf(f.items[x.item]).value, f.(flow := f.flow.(claim := None));
            var c := CancelAll(g, "rerun", {Ai, Rule});
            && c.Some? && Quiet(f, Touch(c.value, r)) && !HasEffective(Touch(c.value, r))
            && |Touch(c.value, r).attempts| == |f.attempts|
            && Touch(c.value, r).items == f.items && Touch(c.value, r).runs == f.runs
            && Touch(c.value, r).flow.revision == f.flow.revision && Touch(c.value, r).flow.claim == None
            && r < Touch(c.value, r).resumes && !Closed(AppOf(Touch(c.value, r), r).appStatus)
            && (forall m | 0 <= m < |Touch(c.value, r).memberships| && Touch(c.value, r).memberships[m].status == MemberAllocated ::
                  Touch(c.value, r).memberships[m].resume == r)
            && (HasAllocatedOf(f, r) ==> HasAllocatedOf(Touch(c.value, r), r))
  {
    hide Current, Closed, Quiet, CancelAll, Touch, AttemptsMove, LogMoves, Terminal;
    var r, g := CurrentOf(f.items[x.item]).value, f.(flow := f.flow.(claim := None));
    FlowQuiet(f, g);
    OpenAppsSame(f, g);
    CancelledAll(g, "rerun", {Ai, Rule});
    var c := CancelAll(g, "rerun", {Ai, Rule}).value;
    QuietOn(f, g, c);
    TouchQuiet(c, r);
    TouchRows(c, r);
    QuietOn(f, c, Touch(c, r));
    QuietParts(f, Touch(c, r));
    ClosedSame(f, Touch(c, r));
    EngineCleared(f, c);
    EffectiveSame(c, Touch(c, r));
    TouchMembers(c, r);
    TouchMakesCurrent(c, r);
  }

  predicate HasAllocatedOf(f: File, r: nat) {
    exists m :: 0 <= m < |f.memberships| && f.memberships[m].status == MemberAllocated && f.memberships[m].resume == r
  }

  lemma ClosedSame(a: File, b: File)
    requires NoneCloses(a, b)
    ensures forall r: nat :: !Closed(AppOf(a, r).appStatus) ==> !Closed(AppOf(b, r).appStatus)
  {
    hide Closed;
  }

  lemma OpenAppsSame(a: File, b: File)
    requires OpenApps(a) && b.attempts == a.attempts && b.apps == a.apps && b.resumes == a.resumes
    ensures OpenApps(b)
  {
    hide Closed;
  }

  lemma CancelledAll(f: File, reason: string, sources: set<Source>)
    requires OpenApps(f)
    ensures CancelAll(f, reason, sources).Some?
    ensures var g := CancelAll(f, reason, sources).value;
            && Quiet(f, g) && g == f.(attempts := g.attempts, apps := g.apps, events := g.events)
            && OnlyCancelled(f.attempts, g.attempts)
            && forall k | 0 <= k < |g.attempts| && g.attempts[k].source in sources :: !OpenStatus(g.attempts[k].status)
  {
    hide Quiet, LogMoves;
    CancelGoes(f, |f.attempts|, reason, sources);
    CancelOpenQuiet(f, |f.attempts|, reason, sources);
    CancelOpenShape(f, |f.attempts|, reason, sources);
  }

  lemma EngineCleared(f: File, c: File)
    requires OnlyCancelled(f.attempts, c.attempts)
    requires forall k | 0 <= k < |f.attempts| && EffectiveStatus(f.attempts[k].status) ::
               OpenStatus(f.attempts[k].status) && f.attempts[k].source != Manual
    requires forall k | 0 <= k < |c.attempts| && c.attempts[k].source in {Ai, Rule} :: !OpenStatus(c.attempts[k].status)
    ensures !HasEffective(c)
  {}

  lemma TouchMembers(f: File, r: nat)
    ensures forall m | 0 <= m < |Touch(f, r).memberships| && Touch(f, r).memberships[m].status == MemberAllocated ::
              Touch(f, r).memberships[m].resume == r
    ensures HasAllocatedOf(f, r) ==> HasAllocatedOf(Touch(f, r), r)
  {
    hide CloseMembers;
    OnlyExceptRemains(f, Some(r));
    var g := Touch(f, r);
    if HasAllocatedOf(f, r) {
      var m :| 0 <= m < |f.memberships| && f.memberships[m].status == MemberAllocated && f.memberships[m].resume == r;
      assert ActiveMember(g.memberships[m]);
      assert g.memberships[m] == f.memberships[m];
    }
  }

  /** What a stored rejection does: of the items only its own changes. It goes on with the next
      volunteer of its snapshot at the workflow's new revision, or ends with the candidate in the
      talent pool exactly when no application is left. */
  ghost predicate RejectionRow(a: File, i: nat, b: File)
    requires i < |a.items|
  {
    var next := Advanced(a.items[i]);
    && |b.items| == |a.items| && b.runs == a.runs
    && (forall j | 0 <= j < |a.items| && j != i :: b.items[j] == a.items[j])
    && b.items[i] == (if CurrentOf(next).Some?
                      then next.(state := CandidateFile.Waiting, continuation := Some(b.flow.revision), written := true)
                      else a.items[i].(state := Success, written := true))
    && (CurrentOf(next).Some? ==> b.flow.status == InProgress && b.flow.currentResume == CurrentOf(next))
    && (CurrentOf(next).None? ==>
          (b.flow.status == TalentPool <==> !Remaining(b)) && (b.flow.status == WaitingNext <==> Remaining(b)))
  }

  lemma AdvancedWritten(item: ScopeItem)
    ensures Advanced(item.(written := true)) == Advanced(item).(written := true)
  {
    hide Current;
  }

  /** Storing an outcome goes through, whatever it is. */
  lemma ConcludeStores(f: File, i: nat, r: nat, result: Analysis)
    requires i < |f.items| && r < f.resumes && !Closed(AppOf(f, r).appStatus) && !result.Interrupted?
    ensures Conclude(f, i, r, result, f.flow.revision).Some?
    ensures var g := Conclude(f, i, r, result, f.flow.revision).value;
            && g.attempts == f.attempts && g.flow.revision == f.flow.revision + 1 && g.flow.claim == f.flow.claim && NoneAllocated(f, g)
            && (if result.AnalysisFailed? then g.memberships == f.memberships else !HasAllocated(g))
            && (if result.Rejected? then RejectionRow(f, i, g) && AppOf(g, r).appStatus == AiRejected else ItemsKept(f, g))
  {
    hide Current, Closed, Quiet, SetApplication, ToTalentPool, CloseMembers, LogMoves, ItemsKept, NoneAllocated;
    hide HasAllocated, Advanced;
    var seen := f.flow.revision;
    match result {
      case AnalysisFailed(why, transient) =>
        StatusGoes(f, r, Blocked, why);
        SetApplicationMoves(f, r, Blocked, why);
        SameMembers(f, Conclude(f, i, r, result, seen).value);
        OneItemKept(f, i, Conclude(f, i, r, result, seen).value);
      case Rejected(why) =>
        OnlyExceptRemains(f, None);
        CloseQuiet(f, None);
        QuietParts(f, CloseMembers(f, None));
        var c := CloseMembers(f, None);
        StatusGoes(c, r, AiRejected, why);
        SetApplicationMoves(c, r, AiRejected, why);
        var s := SetApplication(c, r, AiRejected, why).value;
        ContinueStores(f, c, s, i, r);
      case Pooled(why) =>
        OnlyExceptRemains(f, None);
        CloseQuiet(f, None);
        QuietParts(f, CloseMembers(f, None));
        var c := CloseMembers(f, None);
        StatusGoes(c, r, AppPendingAllocation, why);
        SetApplicationMoves(c, r, AppPendingAllocation, why);
        PooledRows(f, c, Conclude(f, i, r, result, seen).value, r);
        OneItemKept(f, i, Conclude(f, i, r, result, seen).value);
    }
  }

  lemma SameMembers(a: File, b: File)
    requires b.memberships == a.memberships
    ensures NoneAllocated(a, b)
  {}

  lemma OneItemKept(a: File, i: nat, b: File)
    requires i < |a.items| && b.runs == a.runs && |b.items| == |a.items|
    requires forall j | 0 <= j < |a.items| && j != i :: b.items[j] == a.items[j]
    requires b.items[i] == a.items[i].(state := b.items[i].state, written := b.items[i].written) && Terminal(b.items[i].state)
    ensures ItemsKept(a, b)
  {}

  lemma PooledRows(a: File, c: File, b: File, r: nat)
    requires NoneAllocated(a, c) && !HasAllocated(c) && b.memberships == c.memberships + [Membership(r, PendingAllocation, 1)]
    ensures NoneAllocated(a, b) && !HasAllocated(b)
  {}

  lemma ContinueStores(f: File, c: File, s: File, i: nat, r: nat)
    requires i < |f.items| && c == CloseMembers(f, None) && NoneAllocated(f, c) && !HasAllocated(c)
    requires s == c.(apps := s.apps, events := s.events) && c == f.(memberships := c.memberships)
    requires AppOf(s, r).appStatus == AiRejected
    ensures var g := Continue(Written(Bump(s, f.flow.revision), i), i, f.flow.revision + 1);
            && g.attempts == f.attempts && g.flow.revision == f.flow.revision + 1 && g.flow.claim == f.flow.claim
            && NoneAllocated(f, g) && !HasAllocated(g)
            && RejectionRow(f, i, g) && AppOf(g, r).appStatus == AiRejected
  {
    hide Current, Quiet, ToTalentPool, CloseMembers, ItemsKept, NoneAllocated, HasAllocated, Advanced, Touch, Remaining;
    var w := Written(Bump(s, f.flow.revision), i);
    AdvancedWritten(f.items[i]);
    assert w.items[i] == f.items[i].(written := true);
    var next := Advanced(w.items[i]);
    var g := Continue(w, i, f.flow.revision + 1);
    SameMembers(c, w);
    AllocatedOn(f, c, w);
    if CurrentOf(next).Some? {
      TouchRows(w, CurrentOf(next).value);
      TouchQuiet(w, CurrentOf(next).value);
      QuietParts(w, Touch(w, CurrentOf(next).value));
      SameMembers(Touch(w, CurrentOf(next).value), g);
      AllocatedOn(w, Touch(w, CurrentOf(next).value), g);
      AllocatedOn(f, w, g);
    } else {
      TalentQuiet(w);
      TalentRows(w);
      RemainingSame(w, g);
      QuietParts(w, ToTalentPool(w));
      SameMembers(ToTalentPool(w), g);
      AllocatedOn(w, ToTalentPool(w), g);
      AllocatedOn(f, w, g);
    }
    StaysUnallocated(c, w);
    StaysUnallocated(w, g);
  }

  lemma AllocatedOn(a: File, b: File, c: File)
    requires NoneAllocated(a, b) && NoneAllocated(b, c)
    ensures NoneAllocated(a, c)
  {}

  lemma TalentRows(f: File)
    ensures var g := ToTalentPool(f);
            && g.apps == f.apps && g.resumes == f.resumes && g.attempts == f.attempts && g.items == f.items && g.runs == f.runs
            && g.flow.revision == f.flow.revision && g.flow.claim == f.flow.claim
            && g.flow.status == if Remaining(f) then WaitingNext else TalentPool
  {
    hide Remaining;
  }

  /** The second transaction while the claim still holds: it is refused exactly when the analysis was
      interrupted and nobody asked to cancel the run. */
  lemma HeldWrites(f: File, x: Flight, result: Analysis)
    requires OpenApps(f) && LiveFlight(f, x) && Held(f, x)
    ensures FinishItem(f, x, result).None? <==> !f.runs[f.items[x.item].run].cancelRequested && result.Interrupted?
    ensures FinishItem(f, x, result).Some? ==>
              if f.runs[f.items[x.item].run].cancelRequested
              then Quiet(f, FinishItem(f, x, result).value) && FinishItem(f, x, result).value.attempts == f.attempts
                   && FinishItem(f, x, result).value.flow.revision == f.flow.revision
              else StoredRows(f, x, result, FinishItem(f, x, result).value)
  {
    hide Current, Closed, Quiet, CancelAll, Touch, SetApplication, LogMoves, Conclude, StoredRows, Terminal;
    var r, g := CurrentOf(f.items[x.item]).value, f.(flow := f.flow.(claim := None));
    if f.runs[f.items[x.item].run].cancelRequested {
      FlowQuiet(f, g);
      StoppedQuiet(g, x.item);
      var h := SetItem(g, x.item, ItemStopped);
      QuietOn(f, g, h);
      NotClosedStatus();
      StatusGoes(h, r, Blocked, "cancelled");
      SetQuiet(h, r, Blocked, "cancelled");
      SetApplicationMoves(h, r, Blocked, "cancelled");
      QuietOn(f, h, SetApplication(h, r, Blocked, "cancelled").value);
    } else if !result.Interrupted? {
      Readied(f, x);
      var t := Touch(CancelAll(g, "rerun", {Ai, Rule}).value, r);
      ConcludeStores(t, x.item, r, result);
      StoredFrom(f, x, result, t, Conclude(t, x.item, r, result, f.flow.revision).value);
    }
  }

  lemma StoppedQuiet(f: File, i: nat)
    requires i < |f.items|
    ensures Quiet(f, SetItem(f, i, ItemStopped)) && SetRowsOf(f, SetItem(f, i, ItemStopped))
  {
    ItemStateQuiet(f, i, ItemStopped);
  }

  predicate SetRowsOf(a: File, b: File) { b == a.(items := b.items) }

  /** The rows after a stored outcome: no attempt is effective, the revision has moved by one, and
      only a failure leaves a membership allocated, namely the assessed resume's own. */
  ghost predicate StoredRows(f: File, x: Flight, result: Analysis, g: File)
    requires x.item < |f.items|
  {
    && !HasEffective(g) && |g.attempts| == |f.attempts| && g.flow.revision == f.flow.revision + 1 && g.flow.claim == None
    && NoneAllocated(f, g)
    && (HasAllocated(g) ==> result.AnalysisFailed? && CurrentOf(f.items[x.item]).Some? && HasAllocatedOf(f, CurrentOf(f.items[x.item]).value))
    && (result.AnalysisFailed? && CurrentOf(f.items[x.item]).Some? && HasAllocatedOf(f, CurrentOf(f.items[x.item]).value) ==> HasAllocated(g))
    && (if result.Rejected?
        then RejectionRow(f, x.item, g) && CurrentOf(f.items[x.item]).Some? && AppOf(g, CurrentOf(f.items[x.item]).value).appStatus == AiRejected
        else ItemsKept(f, g))
  }

  lemma StoredFrom(f: File, x: Flight, result: Analysis, t: File, g: File)
    requires x.item < |f.items| && CurrentOf(f.items[x.item]).Some? && !result.Interrupted?
    requires var r := CurrentOf(f.items[x.item]).value;
             && Quiet(f, t) && !HasEffective(t) && |t.attempts| == |f.attempts| && t.items == f.items && t.runs == f.runs
             && t.flow.revision == f.flow.revision && t.flow.claim == None && g.flow.claim == None
             && (forall m | 0 <= m < |t.memberships| && t.memberships[m].status == MemberAllocated :: t.memberships[m].resume == r)
             && (HasAllocatedOf(f, r) ==> HasAllocatedOf(t, r))
             && g.attempts == t.attempts && g.flow.revision == t.flow.revision + 1 && NoneAllocated(t, g)
             && (if result.AnalysisFailed? then g.memberships == t.memberships else !HasAllocated(g))
             && (if result.Rejected? then RejectionRow(t, x.item, g) && AppOf(g, r).appStatus == AiRejected else ItemsKept(t, g))
    ensures StoredRows(f, x, result, g)
  {
    hide Current, ItemsKept, NoneCloses, NoneQueued, Advanced;
    QuietParts(f, t);
    EffectiveSame(t, g);
    AllocatedOn(f, t, g);
    if !result.Rejected? {
      KeptOn(f, t, g);
    }
    var r := CurrentOf(f.items[x.item]).value;
    if HasAllocated(g) {
      var m :| 0 <= m < |g.memberships| && g.memberships[m].status == MemberAllocated;
      assert t.memberships[m].resume == r;
      assert f.memberships[m].resume == r;
    }
  }

  /** Without a held claim only the item's own state may change. */
  lemma UnheldWrites(f: File, x: Flight, result: Analysis)
    requires !Held(f, x) && FinishItem(f, x, result).Some?
    ensures Quiet(f, FinishItem(f, x, result).value) && FinishItem(f, x, result).value == f.(items := FinishItem(f, x, result).value.items)
  {
    hide Quiet, Current, CancelAll, Touch, SetApplication, Conclude;
    QuietNot(f);
    if !Terminal(f.items[x.item].state) {
      ItemStateQuiet(f, x.item, Skipped);
    }
  }
}
