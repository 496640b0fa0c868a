/** What background processing, allocation and changed facts do to the candidate, said on the rows alone. */
module CandidateStages {
  import opened AllocationStore
  import opened Preference
  import opened CandidateFile
  import opened CandidateSafety
  import opened CandidateWrites
  import opened CandidateRuns
  import opened CandidateOutcomes

  // ----- before an item may be worked on -----

  /** What an item finds when its turn comes. */
  datatype Turn = Forbidden | Over | Outdated | Kept | Superseded | Busy | Ready

  /** The revision a pending item may still write at. */
  function AwaitedRevision(item: ScopeItem): nat {
    if item.continuation.Some? then item.continuation.value else if item.submitRevision.Some? then item.submitRevision.value else 0
  }

  predicate Settled(f: File, force: bool) {
    || f.flow.status in {WorkflowPassed, TalentPool} || (f.flow.status == Archived && !force)
    || exists a :: 0 <= a < |f.attempts| && f.attempts[a].status !in {AttemptRejected, AttemptCancelled}
  }

  predicate AwaitsAllocation(f: File) { exists m :: 0 <= m < |f.memberships| && f.memberships[m].status == PendingAllocation }

  /** In the order in which the transaction looks; busy says whether the item must make way for the claim
      that is in force. */
  function TurnOf(f: File, i: nat, busyFirst: bool, busy: bool): Turn {
    if i >= |f.items| || f.items[i].run >= |f.runs| || f.runs[f.items[i].run].cancelRequested then Forbidden
    else if f.items[i].state !in {CandidateFile.Waiting, Processing, WaitingConflict} then Over
    else if AwaitedRevision(f.items[i]) != f.flow.revision then Outdated
    else if busyFirst && busy then Busy
    else if Settled(f, f.runs[f.items[i].run].force) then Kept
    else if AwaitsAllocation(f) && !f.runs[f.items[i].run].force then Superseded
    else if busy then Busy
    else Ready
  }

  predicate ClaimInForce(f: File) { f.flow.claim.Some? && f.flow.claim.value.until > f.now }

  lemma TurnMeans(f: File, i: nat)
    requires i < |f.items| && f.items[i].run < |f.runs|
    ensures RevisionChanged(f.items[i], f.flow) <==> AwaitedRevision(f.items[i]) != f.flow.revision
    ensures var force := f.runs[f.items[i].run].force;
            && (Settled(f, force) ==> Retained(f, force) == Some(f))
            && (!Settled(f, force) && AwaitsAllocation(f) && !force ==>
                  Retained(f, force) == Some(f.(flow := f.flow.(revision := f.flow.revision + 1, claim := None))))
            && (!Settled(f, force) && (force || !AwaitsAllocation(f)) ==> Retained(f, force).None? && !HasEffective(f))
  {
    hide Closed;
    RowSets(f);
  }

  /** A claim is taken exactly when the item's turn has come and its volunteer's application is open: the
      claim runs for twenty seconds under a fresh token, the application is under assessment and the item
      in progress. In every other case the item alone is settled, and a membership that waits for
      allocation makes the workflow move on. */
  lemma ClaimOutcome(f: File, i: nat)
    ensures var c := ClaimItem(f, i);
            match TurnOf(f, i, false, ClaimInForce(f)) {
              case Forbidden => c == None
              case Over => c == Some((f, None))
              case Outdated => c == Some((f.(items := f.items[i := f.items[i].(state := Skipped)]), None))
              case Kept => c == Some((f.(items := f.items[i := f.items[i].(state := Success)]), None))
              case Superseded =>
                c == Some((f.(items := f.items[i := f.items[i].(state := Success)],
                              flow := f.flow.(revision := f.flow.revision + 1, claim := None)), None))
              case Busy => c == Some((f.(items := f.items[i := f.items[i].(state := WaitingConflict)]), None))
              case Ready =>
                if CurrentOf(f.items[i]).None? || CurrentOf(f.items[i]).value >= f.resumes
                   || AppOf(f, CurrentOf(f.items[i]).value).appStatus in {AiRejected, DepartmentRejected, ReviewRejected, AppPassed}
                then c == None
                else
                  && c.Some? && c.value.1 == Some(Flight(i, f.nextToken, f.flow.revision))
                  && EndsIn(f, c.value.0, CurrentOf(f.items[i]).value, Assessing, "assessing")
                  && c.value.0 == f.(apps := c.value.0.apps, events := c.value.0.events, nextToken := f.nextToken + 1,
                       items := f.items[i := f.items[i].(state := Processing)],
                       flow := f.flow.(claim := Some(ProcessingClaim(i, f.nextToken, f.now + 20 * 1000000))))
            }
  {
    hide SetApplication, EndsIn, Current, Retained, RevisionChanged, HasEffective, Settled, AwaitsAllocation, Closed;
    if i < |f.items| && f.items[i].run < |f.runs| {
      TurnMeans(f, i);
      StatusSets(Blocked, PendingReview, f.items[i].state, Membership(0, MemberClosed, 0));
      if CurrentOf(f.items[i]).Some? && TurnOf(f, i, false, ClaimInForce(f)) == Ready {
        var r := CurrentOf(f.items[i]).value;
        StatusSets(AppOf(f, r).appStatus, PendingReview, f.items[i].state, Membership(0, MemberClosed, 0));
        NotClosedStatus();
        OpenStatusGoes(f, r, Assessing, "assessing");
        if r < f.resumes && !Closed(AppOf(f, r).appStatus) {
          SetEndsIn(f, r, Assessing, "assessing");
          var s := SetApplication(f, r, Assessing, "assessing").value;
          EndsAlike(f, f, s, ClaimItem(f, i).value.0, r, Assessing, "assessing");
        }
      }
    }
  }

  /** What the two stages before the assessment write once the item's turn has come. A forced run
      reopens an archived workflow when the volunteer is admitted; whoever is not admitted, or has no job
      to be matched with, is archived; without any usable standard the application is blocked. */
  ghost predicate Prepared(f: File, g: File, i: nat, r: nat, stage: Stage, v: Verdict)
    requires i < |f.items| && f.items[i].run < |f.runs|
  {
    var force := f.runs[f.items[i].run].force;
    if stage == Admission && v.admitted then g == if force then f.(flow := f.flow.(status := InProgress, passedAttempt := None)) else f
    else if stage == Admission then
      && g == f.(memberships := g.memberships, items := f.items[i := f.items[i].(state := Success)],
                 flow := f.flow.(status := Archived, currentResume := Some(r), passedAttempt := if force then None else f.flow.passedAttempt))
      && Inactive(g.memberships) && |g.memberships| == |f.memberships|
    else if v.ready then g == f
    else
      && g == f.(memberships := g.memberships, apps := g.apps, events := g.events, items := f.items[i := f.items[i].(state := NeedsAttention)],
                 flow := f.flow.(status := if v.unavailable then InProgress else Archived, currentResume := Some(r)))
      && Inactive(g.memberships) && |g.memberships| == |f.memberships|
      && (if v.unavailable then EndsIn(f, g, r, Blocked, "unavailable") else g.apps == f.apps && g.events == f.events)
  }

  lemma PrepareOutcome(f: File, i: nat, stage: Stage, v: Verdict)
    ensures var c, busy := PrepareItem(f, i, stage, v), ClaimInForce(f) && f.flow.claim.value.item != i;
            match TurnOf(f, i, true, busy) {
              case Forbidden => c == None
              case Over => c == Some(f)
              case Outdated => c == Some(f.(items := f.items[i := f.items[i].(state := Skipped)]))
              case Busy => c == Some(f)
              case Kept => c == Some(f.(items := f.items[i := f.items[i].(state := Success)]))
              case Superseded =>
                c == Some(f.(items := f.items[i := f.items[i].(state := Success)],
                             flow := f.flow.(revision := f.flow.revision + 1, claim := None)))
              case Ready =>
                if CurrentOf(f.items[i]).Some? then
                  var r := CurrentOf(f.items[i]).value;
                  if stage == Matching && !v.ready && v.unavailable
                     && (r >= f.resumes || AppOf(f, r).appStatus in {AiRejected, DepartmentRejected, ReviewRejected, AppPassed})
                  then c == None
                  else c.Some? && Prepared(f, c.value, i, r, stage, v)
                else if f.items[i].wishes == [] then c == Some(f.(items := f.items[i := f.items[i].(state := NeedsAttention)]))
                else
                  && c.Some? && c.value == f.(flow := c.value.flow, memberships := c.value.memberships, items := f.items[i := f.items[i].(state := Success)])
                  && c.value.flow == (if Remaining(f) then f.flow.(status := WaitingNext, currentResume := None) else f.flow.(status := TalentPool))
                  && (if Remaining(f) then c.value.memberships == f.memberships else Inactive(c.value.memberships))
            }
  {
    hide SetApplication, EndsIn, Current, Retained, RevisionChanged, HasEffective, Settled, AwaitsAllocation, Closed;
    hide Remaining, CloseMembers, Admit, MatchJob, Prepared;
    if i < |f.items| && f.items[i].run < |f.runs| {
      TurnMeans(f, i);
      StatusSets(Blocked, PendingReview, f.items[i].state, Membership(0, MemberClosed, 0));
      if TurnOf(f, i, true, ClaimInForce(f) && f.flow.claim.value.item != i) == Ready {
        if CurrentOf(f.items[i]).Some? {
          if stage == Admission {
            AdmitOutcome(f, i, CurrentOf(f.items[i]).value, v);
          } else {
            MatchOutcome(f, i, CurrentOf(f.items[i]).value, v);
          }
        } else {
          OnlyExceptRemains(f, None);
          NoneActive(CloseMembers(f, None), None);
        }
      }
    }
  }

  lemma NoOpenAttempts(f: File)
    requires !HasEffective(f)
    ensures forall k | 0 <= k < |f.attempts| :: !OpenStatus(f.attempts[k].status)
  {}

  lemma AdmitOutcome(f: File, i: nat, r: nat, v: Verdict)
    requires i < |f.items| && f.items[i].run < |f.runs| && !HasEffective(f)
    ensures var c := Admit(f, i, r, f.runs[f.items[i].run].force, v); c.Some? && Prepared(f, c.value, i, r, Admission, v)
  {
    hide CloseMembers, HasEffective;
    var force := f.runs[f.items[i].run].force;
    NoOpenAttempts(f);
    NothingToCancel(f, |f.attempts|, "rerun", {Ai, Rule});
    var g := if force then f.(flow := f.flow.(status := InProgress, passedAttempt := None)) else f;
    NothingToCancel(g, |g.attempts|, "rerun", {});
    OnlyExceptRemains(g, Some(r));
    OnlyExceptRemains(Touch(g, r), None);
    NoneActive(CloseMembers(Touch(g, r), None), None);
  }

  lemma MatchOutcome(f: File, i: nat, r: nat, v: Verdict)
    requires i < |f.items| && f.items[i].run < |f.runs| && !HasEffective(f)
    ensures var c := MatchJob(f, i, r, v);
            if !v.ready && v.unavailable && (r >= f.resumes || AppOf(f, r).appStatus in {AiRejected, DepartmentRejected, ReviewRejected, AppPassed})
            then c == None else c.Some? && Prepared(f, c.value, i, r, Matching, v)
  {
    hide CloseMembers, HasEffective, SetApplication, EndsIn, Closed;
    StatusSets(AppOf(f, r).appStatus, PendingReview, Success, Membership(0, MemberClosed, 0));
    NoOpenAttempts(f);
    NothingToCancel(f, |f.attempts|, "rerun", {});
    OnlyExceptRemains(f, Some(r));
    var h := Touch(f, r);
    OnlyExceptRemains(h, None);
    var m := CloseMembers(h, None);
    NoneActive(m, None);
    NotClosedStatus();
    OpenStatusGoes(m, r, Blocked, "unavailable");
    if r < f.resumes && !Closed(AppOf(f, r).appStatus) {
      SetEndsIn(m, r, Blocked, "unavailable");
      var s := SetApplication(m, r, Blocked, "unavailable").value;
      EndsAlike(f, m, s, Ended(s, i, NeedsAttention), r, Blocked, "unavailable");
    }
  }

  // ----- ending a run -----

  /** Stopping a run ends its unfinished items. If one of them holds the claim, the claim is dropped and its
      volunteer's application no longer counts as under assessment. */
  lemma StopOutcome(f: File, run: nat, cancelled: bool)
    requires StopRun(f, run, cancelled).Some?
    ensures var g := StopRun(f, run, cancelled).value;
            var mine := f.flow.claim.Some? && f.flow.claim.value.item < |f.items| && f.items[f.flow.claim.value.item].run == run;
            && g == f.(items := g.items, apps := g.apps, events := g.events, flow := if mine then f.flow.(claim := None) else f.flow)
            && |g.items| == |f.items|
            && (forall i | 0 <= i < |f.items| :: g.items[i] ==
                  if f.items[i].run == run && f.items[i].state in {CandidateFile.Waiting, Processing, WaitingConflict}
                  then f.items[i].(state := if cancelled then ItemStopped else ItemError) else f.items[i])
            && (if mine && CurrentOf(f.items[f.flow.claim.value.item]).Some?
                   && AppOf(f, CurrentOf(f.items[f.flow.claim.value.item]).value).appStatus == Assessing
                then EndsIn(f, g, CurrentOf(f.items[f.flow.claim.value.item]).value, Blocked, "stopped")
                else g.apps == f.apps && g.events == f.events)
  {
    hide SetApplication, EndsIn, Current;
    var mine := f.flow.claim.Some? && f.flow.claim.value.item < |f.items| && f.items[f.flow.claim.value.item].run == run;
    if mine && CurrentOf(f.items[f.flow.claim.value.item]).Some? {
      var r := CurrentOf(f.items[f.flow.claim.value.item]).value;
      if AppOf(f, r).appStatus == Assessing {
        var stopped := f.(items := Update(f.items, (i: ScopeItem) =>
          if i.run == run && !Terminal(i.state) then i.(state := if cancelled then ItemStopped else ItemError) else i));
        var released := stopped.(flow := f.flow.(claim := None));
        SetEndsIn(released, r, Blocked, "stopped");
        var s := SetApplication(released, r, Blocked, "stopped").value;
        EndsAlike(f, released, s, s, r, Blocked, "stopped");
      }
    }
    forall i | 0 <= i < |f.items|
      ensures Terminal(f.items[i].state) <==> f.items[i].state !in {CandidateFile.Waiting, Processing, WaitingConflict}
    {
      StatusSets(Blocked, PendingReview, f.items[i].state, Membership(0, MemberClosed, 0));
    }
  }

  /** Once a run is to be cancelled, none of its items is prepared or claimed any more. */
  lemma CancelledRunStops(f: File, run: nat, i: nat, stage: Stage, v: Verdict)
    requires run < |f.runs| && i < |f.items| && f.items[i].run == run
    ensures var g := CancelRun(f, run); PrepareItem(g, i, stage, v).None? && ClaimItem(g, i).None?
    ensures CancelRun(f, run) == f.(runs := f.runs[run := RunRow(f.runs[run].force, true)])
  {
    PrepareOutcome(CancelRun(f, run), i, stage, v);
    ClaimOutcome(CancelRun(f, run), i);
  }

  // ----- allocation -----

  /** An allocation is written exactly for a pending membership of the current resume, with an open
      application, a workflow under way and no effective attempt. It adds the engine's attempt, marks the
      membership, closes those of other resumes and leaves the revision alone. */
  lemma AllocatedOutcome(f: File, m: nat, department: nat)
    ensures Allocated(f, m, department).Some? <==>
              && m < |f.memberships| && f.memberships[m].status == PendingAllocation
              && f.flow.currentResume == Some(f.memberships[m].resume)
              && f.flow.status !in {WorkflowPassed, Archived, WaitingNext, TalentPool}
              && (forall a | 0 <= a < |f.attempts| :: f.attempts[a].status in {AttemptRejected, AttemptCancelled})
              && f.memberships[m].resume < f.resumes
              && AppOf(f, f.memberships[m].resume).appStatus !in {AiRejected, DepartmentRejected, ReviewRejected, AppPassed}
    ensures Allocated(f, m, department).Some? ==>
              var g, r := Allocated(f, m, department).value, f.memberships[m].resume;
              && g == f.(flow := f.flow.(status := InProgress), attempts := g.attempts, memberships := g.memberships, apps := g.apps, events := g.events)
              && g.attempts == f.attempts + [Assignment(r, Ai, PendingDispatch, department, None, false)]
              && EndsIn(f, g, r, AppPendingDispatch, "allocated") && |g.memberships| == |f.memberships|
              && (forall n | 0 <= n < |f.memberships| ::
                    if n == m then g.memberships[n] == f.memberships[m].(status := MemberAllocated, revision := f.memberships[m].revision + 1)
                    else if f.memberships[n].resume == r then g.memberships[n] == f.memberships[n]
                    else g.memberships[n].status in {MemberClosed, MemberRejected})
  {
    hide SetApplication, EndsIn, CloseMembers, HasEffective, Closed, CreateAttempt;
    RowSets(f);
    if m < |f.memberships| {
      var r := f.memberships[m].resume;
      StatusSets(AppOf(f, r).appStatus, PendingReview, Success, Membership(0, MemberClosed, 0));
      CreatedRows(f, r, Ai, department, "allocated");
      OnlyExceptRemains(f, Some(r));
      if Allocated(f, m, department).Some? {
        CreatedElse(f, r, Ai, department, "allocated");
        var c := CreateAttempt(f, r, Ai, department, "allocated").value;
        EndsAlike(f, f, c, Allocated(f, m, department).value, r, AppPendingDispatch, "allocated");
      }
    }
  }

  lemma CreatedElse(f: File, resume: nat, source: Source, department: nat, reason: string)
    requires CreateAttempt(f, resume, source, department, reason).Some?
    ensures var g := CreateAttempt(f, resume, source, department, reason).value;
            g == f.(flow := g.flow, attempts := g.attempts, memberships := g.memberships, apps := g.apps, events := g.events)
  {
    hide CloseMembers;
    OnlyExceptRemains(f.(attempts := f.attempts + [Assignment(resume, source, PendingDispatch, department, None, false)]), Some(resume));
  }

  // ----- changed facts -----

  /** Cleaning a membership that lost its validity: it and its application fall back to being analysed
      again, unless the membership does not wait or its application is closed. */
  lemma CleanOutcome(f: File, m: nat)
    ensures CleanMember(f, m).Some? <==>
              && m < |f.memberships| && f.memberships[m].status in {PendingAllocation, NeedsReanalysis} && f.memberships[m].resume < f.resumes
              && AppOf(f, f.memberships[m].resume).appStatus !in {AiRejected, DepartmentRejected, ReviewRejected, AppPassed}
    ensures CleanMember(f, m).Some? ==>
              var g, row := CleanMember(f, m).value, f.memberships[m];
              && g == f.(memberships := f.memberships[m := Membership(row.resume, NeedsReanalysis, row.revision + 1)], apps := g.apps, events := g.events)
              && EndsIn(f, g, row.resume, AppNeedsReanalysis, "stale")
  {
    if m < |f.memberships| {
      RestateOutcome(f, m, "stale");
    }
  }

  lemma RestateOutcome(f: File, m: nat, reason: string)
    requires m < |f.memberships|
    ensures Restate(f, m, reason).Some? <==>
              && f.memberships[m].resume < f.resumes
              && AppOf(f, f.memberships[m].resume).appStatus !in {AiRejected, DepartmentRejected, ReviewRejected, AppPassed}
    ensures Restate(f, m, reason).Some? ==>
              var g, row := Restate(f, m, reason).value, f.memberships[m];
              && g == f.(memberships := f.memberships[m := Membership(row.resume, NeedsReanalysis, row.revision + 1)], apps := g.apps, events := g.events)
              && EndsIn(f, g, row.resume, AppNeedsReanalysis, reason)
  {
    hide SetApplication, EndsIn, Closed;
    var row := f.memberships[m];
    StatusSets(AppOf(f, row.resume).appStatus, PendingReview, Success, Membership(0, MemberClosed, 0));
    NotClosedStatus();
    var mid := f.(memberships := f.memberships[m := row.(status := NeedsReanalysis, revision := row.revision + 1)]);
    OpenStatusGoes(mid, row.resume, AppNeedsReanalysis, reason);
    if Restate(f, m, reason).Some? {
      SetEndsIn(mid, row.resume, AppNeedsReanalysis, reason);
      var g := SetApplication(mid, row.resume, AppNeedsReanalysis, reason).value;
      EndsAlike(f, mid, g, g, row.resume, AppNeedsReanalysis, reason);
    }
  }

  /** The first n applications under assessment are blocked; no other changes. */
  lemma {:induction false} StaleAppsRows(f: File, n: nat)
    requires n <= f.resumes
    ensures StaleApps(f, n).Some?
    ensures var g := StaleApps(f, n).value;
            && g == f.(apps := g.apps, events := g.events)
            && forall q: nat ::
                 if q < n && AppOf(f, q).appStatus == Assessing then AppOf(g, q).appStatus == Blocked && AppOf(g, q).reason == "candidate_changed"
                 else AppOf(g, q) == AppOf(f, q)
  {
    hide SetApplication, Closed;
    if n > 0 {
      StaleAppsRows(f, n - 1);
      var g := StaleApps(f, n - 1).value;
      assert AppOf(g, n - 1) == AppOf(f, n - 1);
      if AppOf(g, n - 1).appStatus == Assessing {
        NotClosedStatus();
        OpenStatusGoes(g, n - 1, Blocked, "candidate_changed");
        SetEndsIn(g, n - 1, Blocked, "candidate_changed");
      }
    }
  }

  predicate AwaitsFor(f: File, n: nat, q: nat) {
    exists m :: 0 <= m < n <= |f.memberships| && f.memberships[m].status == PendingAllocation && f.memberships[m].resume == q
  }

  /** The first n memberships that wait for allocation fall back together with their applications. */
  lemma {:induction false} StaleMembersRows(f: File, n: nat)
    requires n <= |f.memberships| && StaleMembers(f, n).Some?
    ensures var g := StaleMembers(f, n).value;
            && g == f.(memberships := g.memberships, apps := g.apps, events := g.events) && |g.memberships| == |f.memberships|
            && (forall m | 0 <= m < |f.memberships| :: g.memberships[m] ==
                  if m < n && f.memberships[m].status == PendingAllocation
                  then Membership(f.memberships[m].resume, NeedsReanalysis, f.memberships[m].revision + 1) else f.memberships[m])
            && forall q: nat ::
                 if AwaitsFor(f, n, q) then AppOf(g, q).appStatus == AppNeedsReanalysis else AppOf(g, q) == AppOf(f, q)
    decreases n
  {
    hide Restate, Closed;
    if n > 0 {
      StaleMembersRows(f, n - 1);
      var g := StaleMembers(f, n - 1).value;
      assert g.memberships[n - 1] == f.memberships[n - 1];
      if g.memberships[n - 1].status == PendingAllocation {
        RestateOutcome(g, n - 1, "candidate_changed");
      }
      var h, row := StaleMembers(f, n).value, f.memberships[n - 1];
      forall q: nat
        ensures if AwaitsFor(f, n, q) then AppOf(h, q).appStatus == AppNeedsReanalysis else AppOf(h, q) == AppOf(f, q)
      {
        OneMore(f, n, q);
      }
    }
  }

  lemma OneMore(f: File, n: nat, q: nat)
    requires 0 < n <= |f.memberships|
    ensures AwaitsFor(f, n, q) <==> AwaitsFor(f, n - 1, q) || (f.memberships[n - 1].status == PendingAllocation && f.memberships[n - 1].resume == q)
  {}

  /** A change of the candidate's facts raises the revision, drops the claim, sends every membership that
      waits for allocation back together with its application, and blocks the other applications under
      assessment. Attempts, items and runs stay. */
  lemma EditOutcome(f: File)
    requires EditCandidate(f).Some?
    ensures var g := EditCandidate(f).value;
            && g == f.(flow := f.flow.(revision := f.flow.revision + 1, claim := None), memberships := g.memberships, apps := g.apps, events := g.events)
            && |g.memberships| == |f.memberships|
            && (forall m | 0 <= m < |f.memberships| :: g.memberships[m] ==
                  if f.memberships[m].status == PendingAllocation
                  then Membership(f.memberships[m].resume, NeedsReanalysis, f.memberships[m].revision + 1) else f.memberships[m])
            && forall q: nat ::
                 if AwaitsFor(f, |f.memberships|, q) then AppOf(g, q).appStatus == AppNeedsReanalysis
                 else if q < f.resumes && AppOf(f, q).appStatus == Assessing then AppOf(g, q).appStatus == Blocked
                 else AppOf(g, q) == AppOf(f, q)
  {
    hide StaleApps, StaleMembers;
    var a := Invalidate(f);
    StaleAppsRows(a, f.resumes);
    var b := StaleApps(a, f.resumes).value;
    StaleMembersRows(b, |b.memberships|);
    var g := EditCandidate(f).value;
    forall q: nat
      ensures if AwaitsFor(f, |f.memberships|, q) then AppOf(g, q).appStatus == AppNeedsReanalysis
              else if q < f.resumes && AppOf(f, q).appStatus == Assessing then AppOf(g, q).appStatus == Blocked
              else AppOf(g, q) == AppOf(f, q)
    {
      SameAwaiting(f, b, q);
      assert AppOf(a, q) == AppOf(f, q);
    }
  }

  lemma SameAwaiting(f: File, b: File, q: nat)
    requires b.memberships == f.memberships
    ensures AwaitsFor(f, |f.memberships|, q) <==> AwaitsFor(b, |b.memberships|, q)
  {}

  /** Work on a membership is possible for the current resume only, revising its tags only while it waits for
      allocation. Like an import it raises the revision and drops the claim, so that an analysis under way
      cannot store its outcome. */
  lemma PooledAndImported(f: File, m: nat, retag: bool, permitted: bool, added: nat)
    ensures PoolAction(f, m, retag, permitted).Some? <==>
              && m < |f.memberships| && permitted && f.flow.currentResume == Some(f.memberships[m].resume)
              && (retag ==> f.memberships[m].status == PendingAllocation)
    ensures PoolAction(f, m, retag, permitted).Some? ==>
              var g := PoolAction(f, m, retag, permitted).value;
              && g == f.(memberships := g.memberships, flow := f.flow.(revision := f.flow.revision + 1, claim := None))
              && g.memberships == f.memberships[m := f.memberships[m].(revision := f.memberships[m].revision + if retag then 1 else 0)]
    ensures Import(f, added) == f.(resumes := f.resumes + added, flow := f.flow.(revision := f.flow.revision + 1, claim := None))
  {}

  /** A submission freezes every wish, marking those of closed applications as rejected, and remembers the
      workflow's revision. */
  lemma SubmitOutcome(f: File, force: bool, entity: string, details: seq<Details>, retry: Option<nat>)
    ensures var g, n := Submit(f, force, entity, details, retry), |f.items|;
            && g == f.(runs := f.runs + [RunRow(force, false)], items := f.items + [g.items[n]])
            && g.items[n] == ScopeItem(|f.runs|, CandidateFile.Waiting, Some(f.flow.revision), None, g.items[n].wishes, entity, retry, false)
            && |g.items[n].wishes| == f.resumes
            && forall k | 0 <= k < f.resumes ::
                 && g.items[n].wishes[k].wish == k
                 && (g.items[n].wishes[k].rejected <==> AppOf(f, k).appStatus in {AiRejected, DepartmentRejected, ReviewRejected, AppPassed})
                 && (k < |details| ==> g.items[n].wishes[k].entity == details[k].entity && g.items[n].wishes[k].applyDate == details[k].applyDate)
                 && (k >= |details| ==> g.items[n].wishes[k].entity == "" && g.items[n].wishes[k].applyDate == "")
  {
    forall k | 0 <= k < f.resumes
      ensures Closed(AppOf(f, k).appStatus) <==> AppOf(f, k).appStatus in {AiRejected, DepartmentRejected, ReviewRejected, AppPassed}
    {
      StatusSets(AppOf(f, k).appStatus, PendingReview, Success, Membership(0, MemberClosed, 0));
    }
  }

  /** A renewal gives the claim another twenty seconds if it is still this worker's and the revision is the
      one it took; otherwise it changes nothing. */
  lemma RenewOutcome(f: File, x: Flight)
    ensures Renew(f, x) ==
              if f.flow.claim.Some? && f.flow.claim.value.item == x.item && f.flow.claim.value.token == x.token && f.flow.revision == x.revision
              then f.(flow := f.flow.(claim := Some(ProcessingClaim(x.item, x.token, f.now + 20 * 1000000)))) else f
  {}
}
