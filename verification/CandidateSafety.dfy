/** What the candidate's transactions keep, whatever their interleaving: one effective attempt, a
    passed workflow for good, revisions that only grow, and an event log that replays. */
module CandidateSafety {
  import opened AllocationStore
  import opened Preference
  import opened CandidateFile

  // ----- the event log -----

  /** The status an application ends in when the events are replayed; None when one does not start
      where the previous one ended. */
  function Replay(events: seq<AppEvent>, resume: nat, from: AppStatus): Option<AppStatus> {
    if events == [] then Some(from)
    else if events[0].resume != resume then Replay(events[1..], resume, from)
    else if events[0].fromStatus != from then None
    else Replay(events[1..], resume, events[0].toStatus)
  }

  lemma {:induction false} ReplayAppend(x: seq<AppEvent>, y: seq<AppEvent>, resume: nat, from: AppStatus)
    requires Replay(x, resume, from).Some?
    ensures Replay(x + y, resume, from) == Replay(y, resume, Replay(x, resume, from).value)
  {
    if x == [] {
      assert x + y == y;
    } else {
      assert (x + y)[1..] == x[1..] + y;
      ReplayAppend(x[1..], y, resume, if x[0].resume == resume then x[0].toStatus else from);
    }
  }

  predicate Mentions(events: seq<AppEvent>, resume: nat) { exists e :: e in events && e.resume == resume }

  /** The log only grows; its new part replays each application from its old status to its new one;
      a closed application is left exactly as it was and gets no event. */
  ghost predicate LogMoves(a: File, b: File) {
    && |a.events| <= |b.events| && b.events[..|a.events|] == a.events
    && forall r: nat :: AppMoves(a, b, b.events[|a.events|..], r)
  }

  ghost predicate AppMoves(a: File, b: File, tail: seq<AppEvent>, r: nat) {
    && Replay(tail, r, AppOf(a, r).appStatus) == Some(AppOf(b, r).appStatus)
    && (Closed(AppOf(a, r).appStatus) ==> AppOf(b, r) == AppOf(a, r) && !Mentions(tail, r))
  }

  lemma LogSame(a: File, b: File)
    requires b.apps == a.apps && b.events == a.events
    ensures LogMoves(a, b)
  {
    assert b.events[|a.events|..] == [];
  }

  lemma LogOn(a: File, b: File, c: File)
    requires LogMoves(a, b) && LogMoves(b, c)
    ensures LogMoves(a, c)
  {
    hide Replay, Closed;
    var x, y, z := b.events[|a.events|..], c.events[|b.events|..], c.events[|a.events|..];
    assert z == x + y;
    forall r: nat ensures AppMoves(a, c, z, r) {
      assert AppMoves(a, b, x, r) && AppMoves(b, c, y, r);
      ReplayAppend(x, y, r, AppOf(a, r).appStatus);
    }
  }

  lemma SetApplicationMoves(f: File, resume: nat, status: AppStatus, reason: string)
    requires SetApplication(f, resume, status, reason).Some?
    ensures var g := SetApplication(f, resume, status, reason).value;
            && LogMoves(f, g) && g == f.(apps := g.apps, events := g.events)
            && AppOf(g, resume).appStatus == status && forall r: nat | r != resume :: AppOf(g, r) == AppOf(f, r)
  {
    var g := SetApplication(f, resume, status, reason).value;
    var tail := g.events[|f.events|..];
    if |g.events| > |f.events| {
      assert tail == [AppEvent(resume, AppOf(f, resume).appStatus, status, reason)];
      assert tail[1..] == [];
    } else {
      assert tail == [];
    }
    forall r: nat ensures AppMoves(f, g, tail, r) {
      assert r != resume ==> AppOf(g, r) == AppOf(f, r);
    }
  }

  // ----- attempts -----

  /** Open attempts may be cancelled, nothing else changes. */
  ghost predicate OnlyCancelled(a: seq<Assignment>, b: seq<Assignment>) {
    && |b| == |a|
    && forall i | 0 <= i < |a| :: b[i] == a[i] || (OpenStatus(a[i].status) && b[i] == a[i].(status := AttemptCancelled))
  }

  lemma {:induction false} CancelOpenShape(f: File, n: nat, reason: string, sources: set<Source>)
    requires n <= |f.attempts| && CancelOpen(f, n, reason, sources).Some?
    ensures var g := CancelOpen(f, n, reason, sources).value;
            && g == f.(attempts := g.attempts, apps := g.apps, events := g.events)
            && LogMoves(f, g) && OnlyCancelled(f.attempts, g.attempts)
            && (forall i | n <= i < |f.attempts| :: g.attempts[i] == f.attempts[i])
            && (sources == {} ==> forall i | 0 <= i < n :: !OpenStatus(g.attempts[i].status))
  {
    hide LogMoves, SetApplication;
    if n == 0 {
      LogSame(f, f);
    } else {
      CancelOpenShape(f, n - 1, reason, sources);
      var g := CancelOpen(f, n - 1, reason, sources).value;
      var at := g.attempts[n - 1];
      if OpenStatus(at.status) && (sources == {} || at.source in sources) {
        var h := g.(attempts := g.attempts[n - 1 := at.(status := AttemptCancelled)]);
        LogSame(g, h);
        SetApplicationMoves(h, at.resume, AppCancelled, reason);
        LogOn(f, g, h);
        LogOn(f, h, SetApplication(h, at.resume, AppCancelled, reason).value);
      }
    }
  }

  ghost predicate OneEffective(attempts: seq<Assignment>) {
    forall i, j | 0 <= i < j < |attempts| :: !(EffectiveStatus(attempts[i].status) && EffectiveStatus(attempts[j].status))
  }

  predicate HasPassed(attempts: seq<Assignment>) { exists i :: 0 <= i < |attempts| && attempts[i].status == AttemptPassed }

  /** At most one attempt is effective, and one has passed exactly when the workflow has. */
  ghost predicate Sound(f: File) {
    OneEffective(f.attempts) && (f.flow.status == WorkflowPassed <==> HasPassed(f.attempts))
  }

  /** Passed attempts stay passed and no attempt becomes effective again. */
  ghost predicate AttemptsMove(a: seq<Assignment>, b: seq<Assignment>) {
    && |a| <= |b|
    && forall i | 0 <= i < |a| ::
         && (a[i].status == AttemptPassed ==> b[i].status == AttemptPassed)
         && (EffectiveStatus(b[i].status) ==> EffectiveStatus(a[i].status))
         && b[i].resume == a[i].resume && b[i].source == a[i].source
  }

  /** What every transaction guarantees: the state stays sound, the revision and the log only grow,
      a passed workflow stays passed, becoming passed raises the revision, and the talent pool is
      entered only with every application closed. */
  ghost predicate Moves(a: File, b: File) {
    && Sound(b) && LogMoves(a, b) && AttemptsMove(a.attempts, b.attempts)
    && a.flow.revision <= b.flow.revision && a.nextToken <= b.nextToken && a.resumes <= b.resumes
    && (a.flow.status == WorkflowPassed ==> b.flow.status == WorkflowPassed)
    && (b.flow.status == WorkflowPassed ==> a.flow.status == WorkflowPassed || a.flow.revision < b.flow.revision)
    && (b.flow.status == TalentPool ==> a.flow.status == TalentPool || AllClosed(b, a.resumes))
  }

  ghost predicate AllClosed(f: File, n: nat) { forall r | 0 <= r < n :: Closed(AppOf(f, r).appStatus) }

  lemma MovesNot(f: File)
    requires Sound(f)
    ensures Moves(f, f)
  {
    LogSame(f, f);
  }

  lemma MovesOn(a: File, b: File, c: File)
    requires Moves(a, b) && Moves(b, c)
    ensures Moves(a, c)
  {
    hide LogMoves, Sound, AllClosed;
    LogOn(a, b, c);
    ClosedStayClosed(b, c, a.resumes);
    if AllClosed(c, b.resumes) {
      FewerClosed(c, b.resumes, a.resumes);
    }
  }

  lemma ClosedStayClosed(a: File, b: File, n: nat)
    requires LogMoves(a, b)
    ensures AllClosed(a, n) ==> AllClosed(b, n)
  {
    hide Replay, Mentions, Closed;
    forall r | 0 <= r < n && AllClosed(a, n) ensures Closed(AppOf(b, r).appStatus) {
      assert AppMoves(a, b, b.events[|a.events|..], r);
    }
  }

  lemma FewerClosed(f: File, m: nat, n: nat)
    requires n <= m && AllClosed(f, m)
    ensures AllClosed(f, n)
  {}

  /** Steps that leave attempts, log and the passed status alone. */
  lemma MovesAside(a: File, b: File)
    requires Sound(a) && b.attempts == a.attempts && b.apps == a.apps && b.events == a.events
    requires a.flow.revision <= b.flow.revision && a.nextToken <= b.nextToken && a.resumes <= b.resumes
    requires a.flow.status == WorkflowPassed <==> b.flow.status == WorkflowPassed
    requires b.flow.status == TalentPool ==> a.flow.status == TalentPool || (a.resumes == b.resumes && !Remaining(b))
    ensures Moves(a, b)
  {
    LogSame(a, b);
  }

  lemma MovesLog(a: File, b: File)
    requires Sound(a) && LogMoves(a, b) && b == a.(apps := b.apps, events := b.events)
    ensures Moves(a, b)
  {
    hide LogMoves;
  }

  lemma CancellingKeepsSound(a: seq<Assignment>, b: seq<Assignment>)
    requires OnlyCancelled(a, b)
    ensures AttemptsMove(a, b) && (OneEffective(a) ==> OneEffective(b)) && HasPassed(b) == HasPassed(a)
  {
    if i :| 0 <= i < |a| && a[i].status == AttemptPassed {
      assert b[i].status == AttemptPassed;
    }
    if i :| 0 <= i < |b| && b[i].status == AttemptPassed {
      assert a[i].status == AttemptPassed;
    }
  }

  lemma CancelAllMoves(f: File, reason: string, sources: set<Source>)
    requires Sound(f) && CancelAll(f, reason, sources).Some?
    ensures var g := CancelAll(f, reason, sources).value;
            && Moves(f, g) && g == f.(attempts := g.attempts, apps := g.apps, events := g.events)
            && (sources == {} && !HasPassed(f.attempts) ==> !HasEffective(g))
  {
    hide LogMoves, OneEffective, HasPassed;
    CancelOpenShape(f, |f.attempts|, reason, sources);
    var g := CancelAll(f, reason, sources).value;
    CancellingKeepsSound(f.attempts, g.attempts);
    if sources == {} && !HasPassed(f.attempts) {
      NoneEffective(g);
    }
  }

  lemma NoneEffective(f: File)
    requires !HasPassed(f.attempts) && forall i | 0 <= i < |f.attempts| :: !OpenStatus(f.attempts[i].status)
    ensures !HasEffective(f)
  {}

  lemma CreateAttemptMoves(f: File, resume: nat, source: Source, department: nat, reason: string)
    requires Sound(f) && !HasEffective(f) && CreateAttempt(f, resume, source, department, reason).Some?
    ensures var g := CreateAttempt(f, resume, source, department, reason).value;
            && Moves(f, g) && g.flow == f.flow.(status := InProgress, currentResume := Some(resume))
            && g.items == f.items && g.runs == f.runs && |g.memberships| == |f.memberships|
            && |g.attempts| == |f.attempts| + 1 && HasEffective(g)
  {
    hide LogMoves, SetApplication;
    var mid := f.(attempts := f.attempts + [Assignment(resume, source, PendingDispatch, department, None, false)]);
    var touched := Touch(mid, resume);
    SetApplicationMoves(touched, resume, AppPendingDispatch, reason);
    LogSame(f, touched);
    var g := CreateAttempt(f, resume, source, department, reason).value;
    LogOn(f, touched, g);
    assert !HasPassed(f.attempts) by { PassedIsEffective(f); }
    assert OneEffective(g.attempts) && !HasPassed(g.attempts);
    assert EffectiveStatus(g.attempts[|f.attempts|].status);
  }

  lemma PassedIsEffective(f: File)
    ensures HasPassed(f.attempts) ==> HasEffective(f)
  {}

  // ----- people -----

  lemma ManualAssignMoves(f: File, resume: nat, department: nat, receives: bool)
    requires Sound(f) && ManualAssign(f, resume, department, receives).Some?
    ensures Moves(f, ManualAssign(f, resume, department, receives).value)
    ensures ManualAssign(f, resume, department, receives).value.flow.revision == f.flow.revision + 1
  {
    hide Sound, Moves, CancelAll, CreateAttempt, HasEffective;
    MovesAside(f, Invalidate(f));
    var a := Invalidate(f);
    SoundAfter(f, a);
    NotPassed(a);
    CancelAllMoves(a, "manual_replaced", {});
    var b := CancelAll(a, "manual_replaced", {}).value;
    SoundAfter(a, b);
    var c := CloseMembers(b, None);
    MovesAside(b, c);
    SoundAfter(b, c);
    EffectiveSame(b, c);
    CreateAttemptMoves(c, resume, Manual, department, "manual");
    MovesOn(f, a, b);
    MovesOn(f, b, c);
    MovesOn(f, c, CreateAttempt(c, resume, Manual, department, "manual").value);
  }

  lemma SoundAfter(a: File, b: File)
    requires Moves(a, b)
    ensures Sound(b)
  {}

  lemma NotPassed(f: File)
    requires Sound(f) && f.flow.status != WorkflowPassed
    ensures !HasPassed(f.attempts)
  {}

  lemma EffectiveSame(a: File, b: File)
    requires a.attempts == b.attempts
    ensures HasEffective(a) == HasEffective(b)
  {}

  /** Whoever still has an open attempt has not passed. */
  lemma OpenMeansNotPassed(f: File, a: nat)
    requires Sound(f) && a < |f.attempts| && OpenStatus(f.attempts[a].status)
    ensures !HasPassed(f.attempts) && f.flow.status != WorkflowPassed
  {}

  lemma AttemptReplaced(f: File, a: nat, at: Assignment)
    requires OneEffective(f.attempts) && !HasPassed(f.attempts) && a < |f.attempts|
    requires at.resume == f.attempts[a].resume && at.source == f.attempts[a].source
    requires EffectiveStatus(at.status) ==> EffectiveStatus(f.attempts[a].status)
    ensures var next := f.attempts[a := at];
            OneEffective(next) && AttemptsMove(f.attempts, next) && (HasPassed(next) <==> at.status == AttemptPassed)
  {
    var next := f.attempts[a := at];
    assert next[a] == at;
  }

  lemma MutateMoves(f: File, a: nat, action: Action, permitted: bool, note: string)
    requires Sound(f) && Mutate(f, a, action, permitted, note).Some?
    ensures Moves(f, Mutate(f, a, action, permitted, note).value)
    ensures Mutate(f, a, action, permitted, note).value.flow.revision == f.flow.revision + 1
  {
    hide LogMoves, OneEffective, HasPassed, AttemptsMove, SetApplication, CancelAll, Remaining, AfterDepartmentRejection;
    var at := Acted(f.attempts[a], action).value;
    OpenMeansNotPassed(f, a);
    AttemptReplaced(f, a, at);
    var mid := Invalidate(f).(attempts := f.attempts[a := at]);
    LogSame(f, mid);
    match action
    case Feedback(passed, comment) =>
      SetApplicationMoves(mid, at.resume, if passed then AppPassed else DepartmentRejected, comment);
      var g := SetApplication(mid, at.resume, if passed then AppPassed else DepartmentRejected, comment).value;
      LogOn(f, mid, g);
      if passed {
        var h := g.(flow := g.flow.(status := WorkflowPassed, passedAttempt := Some(a)));
        LogSame(g, h);
        LogOn(f, g, h);
        assert Moves(f, h);
        CancelAllMoves(h, "workflow_passed", {});
        MovesOn(f, h, CancelAll(h, "workflow_passed", {}).value);
      } else {
        assert Moves(f, g);
        RejectionMoves(g);
        MovesOn(f, g, AfterDepartmentRejection(g));
      }
    case CancelAttempt(cause) =>
      SetApplicationMoves(mid, at.resume, AppCancelled, cause);
      var g := SetApplication(mid, at.resume, AppCancelled, cause).value;
      LogOn(f, mid, g);
      assert Moves(f, g);
      MovesAside(g, Archive(g));
      MovesOn(f, g, Archive(g));
    case _ =>
      SetApplicationMoves(mid, at.resume, if at.status == Dispatched then DepartmentReview else AppPendingDispatch, note);
      LogOn(f, mid, Mutate(f, a, action, permitted, note).value);
  }

  lemma RemainingSame(a: File, b: File)
    requires b.apps == a.apps && b.resumes == a.resumes
    ensures Remaining(b) == Remaining(a)
  {
    assert forall r: nat :: AppOf(b, r) == AppOf(a, r);
  }

  lemma RejectionMoves(f: File)
    requires Sound(f) && f.flow.status != WorkflowPassed
    ensures Moves(f, AfterDepartmentRejection(f)) && AfterDepartmentRejection(f).flow.revision == f.flow.revision
  {
    hide HasPassed, OneEffective, Remaining;
    RemainingSame(f, AfterDepartmentRejection(f));
    RemainingSame(f, CloseMembers(f, None));
    MovesAside(f, AfterDepartmentRejection(f));
  }

  lemma TalentMoves(f: File)
    requires Sound(f) && f.flow.status != WorkflowPassed
    ensures Moves(f, ToTalentPool(f)) && ToTalentPool(f).flow.revision == f.flow.revision
  {
    hide HasPassed, OneEffective, Remaining;
    RemainingSame(f, ToTalentPool(f));
    MovesAside(f, ToTalentPool(f));
  }

  lemma ApplicationMoves(f: File, resume: nat, status: AppStatus, reason: string)
    requires Sound(f) && SetApplication(f, resume, status, reason).Some?
    ensures var g := SetApplication(f, resume, status, reason).value;
            Moves(f, g) && g == f.(apps := g.apps, events := g.events)
  {
    hide LogMoves, Remaining, SetApplication;
    SetApplicationMoves(f, resume, status, reason);
    MovesLog(f, SetApplication(f, resume, status, reason).value);
  }

  lemma {:induction false} StaleAppsMoves(f: File, n: nat)
    requires Sound(f) && n <= f.resumes && StaleApps(f, n).Some?
    ensures var g := StaleApps(f, n).value;
            Moves(f, g) && g == f.(apps := g.apps, events := g.events)
    decreases n
  {
    hide Moves, Sound, SetApplication;
    if n == 0 {
      MovesNot(f);
    } else {
      StaleAppsMoves(f, n - 1);
      var g := StaleApps(f, n - 1).value;
      SoundAfter(f, g);
      if AppOf(g, n - 1).appStatus == Assessing {
        ApplicationMoves(g, n - 1, Blocked, "candidate_changed");
        MovesOn(f, g, SetApplication(g, n - 1, Blocked, "candidate_changed").value);
      }
    }
  }

  lemma RestateMoves(f: File, m: nat, reason: string)
    requires Sound(f) && m < |f.memberships| && Restate(f, m, reason).Some?
    ensures Moves(f, Restate(f, m, reason).value) && Restate(f, m, reason).value.flow == f.flow
  {
    hide Moves, Sound, SetApplication;
    var row := f.memberships[m];
    var mid := f.(memberships := f.memberships[m := row.(status := NeedsReanalysis, revision := row.revision + 1)]);
    MovesAside(f, mid);
    SoundAfter(f, mid);
    ApplicationMoves(mid, row.resume, AppNeedsReanalysis, reason);
    MovesOn(f, mid, Restate(f, m, reason).value);
  }

  lemma {:induction false} StaleMembersMoves(f: File, n: nat)
    requires Sound(f) && n <= |f.memberships| && StaleMembers(f, n).Some?
    ensures Moves(f, StaleMembers(f, n).value) && StaleMembers(f, n).value.flow == f.flow
    decreases n
  {
    hide Moves, Sound, Restate;
    if n == 0 {
      MovesNot(f);
    } else {
      StaleMembersMoves(f, n - 1);
      var g := StaleMembers(f, n - 1).value;
      SoundAfter(f, g);
      if g.memberships[n - 1].status == PendingAllocation {
        RestateMoves(g, n - 1, "candidate_changed");
        MovesOn(f, g, Restate(g, n - 1, "candidate_changed").value);
      }
    }
  }

  lemma InvalidateMoves(f: File)
    requires Sound(f)
    ensures Moves(f, Invalidate(f)) && Invalidate(f).flow.revision == f.flow.revision + 1
  {
    hide Moves, Sound;
    MovesAside(f, Invalidate(f));
  }

  lemma EditMoves(f: File)
    requires Sound(f) && EditCandidate(f).Some?
    ensures Moves(f, EditCandidate(f).value) && EditCandidate(f).value.flow.revision == f.flow.revision + 1
  {
    hide Moves, Sound;
    InvalidateMoves(f);
    SoundAfter(f, Invalidate(f));
    StaleAppsMoves(Invalidate(f), f.resumes);
    var g := StaleApps(Invalidate(f), f.resumes).value;
    SoundAfter(Invalidate(f), g);
    StaleMembersMoves(g, |g.memberships|);
    MovesOn(f, Invalidate(f), g);
    MovesOn(f, g, EditCandidate(f).value);
  }

  // ----- processing -----

  lemma ItemMoves(f: File, i: nat, state: ItemState)
    requires Sound(f) && i < |f.items|
    ensures Moves(f, SetItem(f, i, state))
  {
    hide Moves, Sound;
    MovesAside(f, SetItem(f, i, state));
  }

  lemma EndedMoves(f: File, i: nat, state: ItemState)
    requires Sound(f)
    ensures Moves(f, Ended(f, i, state)) && Ended(f, i, state).flow == f.flow
  {
    hide Moves, Sound;
    MovesAside(f, Ended(f, i, state));
  }

  lemma RetainedMoves(f: File, force: bool)
    requires Sound(f)
    ensures Retained(f, force).Some? ==> Moves(f, Retained(f, force).value)
    ensures Retained(f, force).None? ==> f.flow.status != WorkflowPassed && f.flow.status != TalentPool && !HasEffective(f)
  {
    hide Moves, Sound, Invalidate;
    MovesNot(f);
    InvalidateMoves(f);
  }

  lemma TouchMoves(f: File, r: nat)
    requires Sound(f) && f.flow.status != WorkflowPassed
    ensures Moves(f, Touch(f, r)) && Touch(f, r).flow.status == InProgress && Touch(f, r).flow.revision == f.flow.revision
    ensures Touch(f, r).items == f.items && Touch(f, r).attempts == f.attempts
  {
    hide Moves, Sound;
    MovesAside(f, Touch(f, r));
  }

  lemma ArchiveMoves(f: File)
    requires Sound(f) && f.flow.status != WorkflowPassed
    ensures Moves(f, Archive(f)) && Archive(f).flow.revision == f.flow.revision
  {
    hide Moves, Sound;
    MovesAside(f, Archive(f));
  }

  lemma CloseMoves(f: File, except: Option<nat>)
    requires Sound(f)
    ensures Moves(f, CloseMembers(f, except)) && CloseMembers(f, except).flow == f.flow
  {
    hide Moves, Sound;
    MovesAside(f, CloseMembers(f, except));
  }

  lemma AdmitMoves(f: File, i: nat, r: nat, force: bool, v: Verdict)
    requires Sound(f) && i < |f.items| && f.flow.status != WorkflowPassed && Admit(f, i, r, force, v).Some?
    ensures Moves(f, Admit(f, i, r, force, v).value)
  {
    hide Moves, Sound, CancelAll, Touch, Archive, Ended;
    MovesNot(f);
    var g := f;
    if force {
      CancelAllMoves(f, "rerun", {Ai, Rule});
      var c := CancelAll(f, "rerun", {Ai, Rule}).value;
      SoundAfter(f, c);
      g := c.(flow := c.flow.(status := InProgress, passedAttempt := None));
      MovesAside(c, g);
      MovesOn(f, c, g);
      SoundAfter(c, g);
    }
    if !v.admitted {
      CancelAllMoves(g, "rerun", {});
      var h := CancelAll(g, "rerun", {}).value;
      SoundAfter(g, h);
      MovesOn(f, g, h);
      TouchMoves(h, r);
      SoundAfter(h, Touch(h, r));
      MovesOn(f, h, Touch(h, r));
      ArchiveMoves(Touch(h, r));
      MovesOn(f, Touch(h, r), Archive(Touch(h, r)));
      SoundAfter(Touch(h, r), Archive(Touch(h, r)));
      EndedMoves(Archive(Touch(h, r)), i, Success);
      MovesOn(f, Archive(Touch(h, r)), Ended(Archive(Touch(h, r)), i, Success));
    }
  }

  lemma MatchMoves(f: File, i: nat, r: nat, v: Verdict)
    requires Sound(f) && i < |f.items| && f.flow.status != WorkflowPassed && MatchJob(f, i, r, v).Some?
    ensures Moves(f, MatchJob(f, i, r, v).value)
  {
    hide Moves, Sound, CancelAll, Touch, Archive, Ended, SetApplication, CloseMembers;
    MovesNot(f);
    if !v.ready {
      CancelAllMoves(f, "rerun", {});
      var g := CancelAll(f, "rerun", {}).value;
      SoundAfter(f, g);
      TouchMoves(g, r);
      var h := Touch(g, r);
      SoundAfter(g, h);
      MovesOn(f, g, h);
      var k := Archive(h);
      if v.unavailable {
        CloseMoves(h, None);
        var m := CloseMembers(h, None);
        SoundAfter(h, m);
        ApplicationMoves(m, r, Blocked, "unavailable");
        MovesOn(f, h, m);
        k := SetApplication(m, r, Blocked, "unavailable").value;
        MovesOn(f, m, k);
        SoundAfter(m, k);
      } else {
        ArchiveMoves(h);
        MovesOn(f, h, k);
        SoundAfter(h, k);
      }
      EndedMoves(k, i, NeedsAttention);
      MovesOn(f, k, Ended(k, i, NeedsAttention));
    }
  }

  lemma PrepareMoves(f: File, i: nat, stage: Stage, v: Verdict)
    requires Sound(f) && PrepareItem(f, i, stage, v).Some?
    ensures Moves(f, PrepareItem(f, i, stage, v).value)
  {
    hide Moves, Sound, Retained, Admit, MatchJob, RevisionChanged, SetItem, ToTalentPool, HasEffective;
    MovesNot(f);
    if !Terminal(f.items[i].state) {
      ItemMoves(f, i, Skipped);
      ItemMoves(f, i, NeedsAttention);
      var force := f.runs[f.items[i].run].force;
      RetainedMoves(f, force);
      match Retained(f, force)
      case Some(kept) =>
        SoundAfter(f, kept);
        RetainedItems(f, force);
        ItemMoves(kept, i, Success);
        MovesOn(f, kept, SetItem(kept, i, Success));
      case None =>
        TalentMoves(f);
        SoundAfter(f, ToTalentPool(f));
        TalentItems(f);
        ItemMoves(ToTalentPool(f), i, Success);
        MovesOn(f, ToTalentPool(f), SetItem(ToTalentPool(f), i, Success));
        if CurrentOf(f.items[i]).Some? {
          var r := CurrentOf(f.items[i]).value;
          if !RevisionChanged(f.items[i], f.flow) && !(LeaseLive(f) && f.flow.claim.value.item != i) {
            if stage == Admission {
              AdmitMoves(f, i, r, force, v);
            } else {
              MatchMoves(f, i, r, v);
            }
          }
        }
    }
  }

  lemma RetainedItems(f: File, force: bool)
    ensures Retained(f, force).Some? ==> Retained(f, force).value.items == f.items
  {}

  lemma TalentItems(f: File)
    ensures ToTalentPool(f).items == f.items
  {}

  lemma ClaimMoves(f: File, i: nat)
    requires Sound(f) && ClaimItem(f, i).Some?
    ensures Moves(f, ClaimItem(f, i).value.0)
    ensures ClaimItem(f, i).value.1.Some? ==>
              var (g, x) := (ClaimItem(f, i).value.0, ClaimItem(f, i).value.1.value);
              && x.item == i && x.revision == g.flow.revision == f.flow.revision && x.token == f.nextToken < g.nextToken
              && f.flow.status != WorkflowPassed && Holds(g, x) && !HasEffective(f)
  {
    hide Moves, Sound, Retained, RevisionChanged, SetApplication, HasEffective;
    MovesNot(f);
    if !Terminal(f.items[i].state) {
      var force := f.runs[f.items[i].run].force;
      ItemMoves(f, i, Skipped);
      ItemMoves(f, i, WaitingConflict);
      RetainedMoves(f, force);
      match Retained(f, force)
      case Some(kept) =>
        SoundAfter(f, kept);
        EndedMoves(kept, i, Success);
        MovesOn(f, kept, Ended(kept, i, Success));
      case None =>
        if !RevisionChanged(f.items[i], f.flow) && !LeaseLive(f) && CurrentOf(f.items[i]).Some? {
          var r := CurrentOf(f.items[i]).value;
          ApplicationMoves(f, r, Assessing, "assessing");
          var g := SetApplication(f, r, Assessing, "assessing").value;
          SoundAfter(f, g);
          var h := ClaimItem(f, i).value.0;
          MovesAside(g, h);
          MovesOn(f, g, h);
        }
    }
  }

  lemma ContinueMoves(f: File, i: nat, revision: nat)
    requires Sound(f) && f.flow.status != WorkflowPassed
    ensures Moves(f, Continue(f, i, revision)) && Continue(f, i, revision).flow.revision == f.flow.revision
  {
    hide Moves, Sound, ToTalentPool, Touch, CurrentOf, Advanced;
    TalentMoves(f);
    SoundAfter(f, ToTalentPool(f));
    EndedMoves(ToTalentPool(f), i, Success);
    MovesOn(f, ToTalentPool(f), Ended(ToTalentPool(f), i, Success));
    if i < |f.items| && CurrentOf(Advanced(f.items[i])).Some? {
      var r := CurrentOf(Advanced(f.items[i])).value;
      var g := Touch(f, r);
      TouchMoves(f, r);
      SoundAfter(f, g);
      MovesAside(g, Continue(f, i, revision));
      MovesOn(f, g, Continue(f, i, revision));
    }
  }

  lemma BumpMoves(f: File)
    requires Sound(f)
    ensures Moves(f, Bump(f, f.flow.revision))
  {
    hide Moves, Sound;
    MovesAside(f, Bump(f, f.flow.revision));
  }

  lemma ConcludeMoves(f: File, i: nat, r: nat, result: Analysis, seen: nat)
    requires Sound(f) && f.flow.status != WorkflowPassed && seen == f.flow.revision && Conclude(f, i, r, result, seen).Some?
    ensures Moves(f, Conclude(f, i, r, result, seen).value)
    ensures Conclude(f, i, r, result, seen).value.flow.revision == f.flow.revision + 1
  {
    hide Moves, Sound, SetApplication, Continue, CloseMembers;
    CloseMoves(f, None);
    var c := if result.AnalysisFailed? then f else CloseMembers(f, None);
    MovesNot(f);
    SoundAfter(f, CloseMembers(f, None));
    var status := if result.AnalysisFailed? then Blocked else if result.Rejected? then AiRejected else AppPendingAllocation;
    ApplicationMoves(c, r, status, result.why);
    var g := SetApplication(c, r, status, result.why).value;
    MovesOn(f, c, g);
    SoundAfter(c, g);
    match result
    case AnalysisFailed(_, transient) =>
      BumpMoves(g);
      SoundAfter(g, Bump(g, seen));
      MovesOn(f, g, Bump(g, seen));
      EndedMoves(Bump(g, seen), i, if transient then ItemError else NeedsAttention);
      MovesOn(f, Bump(g, seen), Conclude(f, i, r, result, seen).value);
    case Rejected(_) =>
      var w := Written(Bump(g, seen), i);
      MovesAside(g, w);
      SoundAfter(g, w);
      MovesOn(f, g, w);
      ContinueMoves(w, i, seen + 1);
      MovesOn(f, w, Continue(w, i, seen + 1));
    case Pooled(_) =>
      var w := Written(Bump(g.(memberships := g.memberships + [Membership(r, PendingAllocation, 1)]), seen), i);
      MovesAside(g, w);
      SoundAfter(g, w);
      MovesOn(f, g, w);
      EndedMoves(w, i, Success);
      MovesOn(f, w, Ended(w, i, Success));
  }

  lemma FinishMoves(f: File, x: Flight, result: Analysis)
    requires Sound(f) && FinishItem(f, x, result).Some?
    requires f.flow.status == WorkflowPassed ==> x.revision < f.flow.revision
    ensures Moves(f, FinishItem(f, x, result).value)
  {
    hide Moves, Sound, SetApplication, CancelAll, Conclude, Touch, Holds;
    MovesNot(f);
    if !Terminal(f.items[x.item].state) {
      ItemMoves(f, x.item, Skipped);
      if Holds(f, x) && f.flow.revision == x.revision {
        var r := CurrentOf(f.items[x.item]).value;
        var g := f.(flow := f.flow.(claim := None));
        MovesAside(f, g);
        SoundAfter(f, g);
        if f.runs[f.items[x.item].run].cancelRequested {
          ItemMoves(g, x.item, ItemStopped);
          MovesOn(f, g, SetItem(g, x.item, ItemStopped));
          SoundAfter(g, SetItem(g, x.item, ItemStopped));
          ApplicationMoves(SetItem(g, x.item, ItemStopped), r, Blocked, "cancelled");
          MovesOn(f, SetItem(g, x.item, ItemStopped), FinishItem(f, x, result).value);
        } else {
          CancelAllMoves(g, "rerun", {Ai, Rule});
          var h := CancelAll(g, "rerun", {Ai, Rule}).value;
          SoundAfter(g, h);
          MovesOn(f, g, h);
          TouchMoves(h, r);
          SoundAfter(h, Touch(h, r));
          MovesOn(f, h, Touch(h, r));
          ConcludeMoves(Touch(h, r), x.item, r, result, f.flow.revision);
          MovesOn(f, Touch(h, r), FinishItem(f, x, result).value);
        }
      }
    }
  }

  // ----- allocation and runs -----

  lemma AllocatedMoves(f: File, m: nat, department: nat)
    requires Sound(f) && Allocated(f, m, department).Some?
    ensures Moves(f, Allocated(f, m, department).value)
    ensures Allocated(f, m, department).value.flow.revision == f.flow.revision && HasEffective(Allocated(f, m, department).value)
  {
    hide Moves, Sound, CreateAttempt, HasEffective;
    CreateAttemptMoves(f, f.memberships[m].resume, Ai, department, "allocated");
    var g := CreateAttempt(f, f.memberships[m].resume, Ai, department, "allocated").value;
    SoundAfter(f, g);
    MovesAside(g, Allocated(f, m, department).value);
    EffectiveSame(g, Allocated(f, m, department).value);
    MovesOn(f, g, Allocated(f, m, department).value);
  }

  lemma StopMoves(f: File, run: nat, cancelled: bool)
    requires Sound(f) && StopRun(f, run, cancelled).Some?
    ensures Moves(f, StopRun(f, run, cancelled).value) && StopRun(f, run, cancelled).value.flow.revision == f.flow.revision
  {
    hide Moves, Sound, SetApplication;
    var stopped := f.(items := Update(f.items, (i: ScopeItem) =>
      if i.run == run && !Terminal(i.state) then i.(state := if cancelled then ItemStopped else ItemError) else i));
    MovesAside(f, stopped);
    if ClaimedByRun(f, run) {
      var released := stopped.(flow := f.flow.(claim := None));
      MovesAside(f, released);
      SoundAfter(f, released);
      if CurrentOf(f.items[f.flow.claim.value.item]).Some? {
        var r := CurrentOf(f.items[f.flow.claim.value.item]).value;
        if AppOf(f, r).appStatus == Assessing {
          ApplicationMoves(released, r, Blocked, "stopped");
          MovesOn(f, released, StopRun(f, run, cancelled).value);
        }
      }
    }
  }
}
