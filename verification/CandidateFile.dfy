/** One candidate's workflow, applications with their event log, assignment attempts, memberships and
    processing items, and the transactions of people, background processing and allocation on them.
    A transaction that meets an error is rolled back: its function returns None. */
module CandidateFile {
  import opened AllocationStore
  import opened Preference

  // ----- rows -----

  datatype AppStatus =
    | AppPending | Assessing | Blocked | AppPendingReview | AppPendingAllocation | AppNeedsReanalysis
    | AppPendingDispatch | DepartmentReview | AppCancelled | AiRejected | DepartmentRejected | ReviewRejected | AppPassed

  datatype Application = Application(appStatus: AppStatus, reason: string, completedAt: Option<nat>)

  datatype AppEvent = AppEvent(resume: nat, fromStatus: AppStatus, toStatus: AppStatus, note: string)

  datatype Source = Manual | Ai | Rule

  datatype Assignment = Assignment(
    resume: nat, source: Source, status: AttemptStatus, department: nat, screener: Option<nat>, answered: bool)

  datatype Membership = Membership(resume: nat, status: MemberStatus, revision: nat)

  datatype ProcessingClaim = ProcessingClaim(item: nat, token: nat, until: nat)

  datatype Flow = Flow(
    status: WorkflowStatus, revision: nat, currentResume: Option<nat>, claim: Option<ProcessingClaim>, passedAttempt: Option<nat>)

  datatype ItemState = Waiting | Processing | WaitingConflict | Success | NeedsAttention | ItemError | Skipped | ItemStopped

  /** wishes, entity and retry: the frozen snapshot, from which the current volunteer is chosen. */
  datatype ScopeItem = ScopeItem(
    run: nat, state: ItemState, submitRevision: Option<nat>, continuation: Option<nat>,
    wishes: seq<Volunteer>, entity: string, retry: Option<nat>, written: bool)

  /** What a resume says about its wish. */
  datatype Details = Details(entity: string, applyDate: string)

  datatype RunRow = RunRow(force: bool, cancelRequested: bool)

  datatype File = File(
    now: nat, nextToken: nat, flow: Flow, resumes: nat, apps: map<nat, Application>, events: seq<AppEvent>,
    attempts: seq<Assignment>, memberships: seq<Membership>, items: seq<ScopeItem>, runs: seq<RunRow>)

  const CLAIM_TIME: nat := 20 * SECOND

  // ----- predicates on rows -----

  predicate Closed(s: AppStatus) { s == AiRejected || s == DepartmentRejected || s == ReviewRejected || s == AppPassed }

  predicate OpenStatus(s: AttemptStatus) { s == PendingReview || s == PendingDispatch || s == Dispatched }

  predicate EffectiveStatus(s: AttemptStatus) { OpenStatus(s) || s == AttemptPassed }

  predicate Terminal(s: ItemState) { s == Success || s == NeedsAttention || s == ItemError || s == Skipped || s == ItemStopped }

  predicate ActiveMember(m: Membership) {
    m.status == MemberPendingReview || m.status == PendingAllocation || m.status == MemberAllocated || m.status == NeedsReanalysis
  }

  function AppOf(f: File, resume: nat): Application {
    if resume in f.apps then f.apps[resume] else Application(AppPending, "", None)
  }

  /** Some application of the candidate is not closed. */
  predicate Remaining(f: File) { exists r :: 0 <= r < f.resumes && !Closed(AppOf(f, r).appStatus) }

  predicate HasEffective(f: File) { exists a :: 0 <= a < |f.attempts| && EffectiveStatus(f.attempts[a].status) }

  predicate HasOpen(f: File) { exists a :: 0 <= a < |f.attempts| && OpenStatus(f.attempts[a].status) }

  // ----- building blocks -----

  /** applicationState. */
  function SetApplication(f: File, resume: nat, status: AppStatus, reason: string): Option<File> {
    if resume >= f.resumes then None
    else
      var prior := AppOf(f, resume);
      if prior.appStatus == status && prior.reason == reason then Some(f.(apps := f.apps[resume := prior]))
      else if Closed(prior.appStatus) then None
      else Some(f.(
        apps := f.apps[resume := Application(status, reason, if Closed(status) then Some(f.now) else None)],
        events := f.events + [AppEvent(resume, prior.appStatus, status, reason)]))
  }

  function Invalidate(f: File): File { f.(flow := f.flow.(claim := None, revision := f.flow.revision + 1)) }

  /** closePoolMemberships. */
  function CloseMembers(f: File, except: Option<nat>): File {
    f.(memberships := Update(f.memberships, (m: Membership) =>
      if ActiveMember(m) && except != Some(m.resume) then m.(status := MemberClosed, revision := m.revision + 1) else m))
  }

  function Touch(f: File, resume: nat): File {
    var f := CloseMembers(f, Some(resume));
    f.(flow := f.flow.(status := InProgress, currentResume := Some(resume)))
  }

  function Archive(f: File): File {
    var f := CloseMembers(f, None);
    f.(flow := f.flow.(status := Archived))
  }

  function WaitForNext(f: File): File { f.(flow := f.flow.(status := WaitingNext, currentResume := None)) }

  function ToTalentPool(f: File): File {
    if Remaining(f) then WaitForNext(f)
    else
      var f := CloseMembers(f, None);
      f.(flow := f.flow.(status := TalentPool))
  }

  function AfterDepartmentRejection(f: File): File {
    var f := CloseMembers(f, None);
    if Remaining(f) then WaitForNext(f) else ToTalentPool(f)
  }

  /** cancelOpenAttempts over the first n attempts; an empty set of sources means all. */
  function CancelOpen(f: File, n: nat, reason: string, sources: set<Source>): (r: Option<File>)
    requires n <= |f.attempts|
    ensures r.Some? ==> |r.value.attempts| == |f.attempts|
    decreases n
  {
    if n == 0 then Some(f)
    else
      match CancelOpen(f, n - 1, reason, sources)
      case None => None
      case Some(g) =>
        var at := g.attempts[n - 1];
        if OpenStatus(at.status) && (sources == {} || at.source in sources)
        then SetApplication(g.(attempts := g.attempts[n - 1 := at.(status := AttemptCancelled)]), at.resume, AppCancelled, reason)
        else Some(g)
  }

  function CancelAll(f: File, reason: string, sources: set<Source>): (r: Option<File>)
    ensures r.Some? ==> |r.value.attempts| == |f.attempts|
  {
    CancelOpen(f, |f.attempts|, reason, sources)
  }

  function CreateAttempt(f: File, resume: nat, source: Source, department: nat, reason: string): Option<File> {
    if Closed(AppOf(f, resume).appStatus) then None
    else
      var f := f.(attempts := f.attempts + [Assignment(resume, source, PendingDispatch, department, None, false)]);
      SetApplication(Touch(f, resume), resume, AppPendingDispatch, reason)
  }

  // ----- people -----

  function ManualAssign(f: File, resume: nat, department: nat, receives: bool): Option<File> {
    if resume >= f.resumes || f.flow.status == WorkflowPassed || !receives then None
    else
      match CancelAll(Invalidate(f), "manual_replaced", {})
      case None => None
      case Some(f) => CreateAttempt(CloseMembers(f, None), resume, Manual, department, "manual")
  }

  datatype Action =
    | Dispatch
    | TransferDepartment(department: nat)
    | TransferScreener(screener: nat)
    | CancelAttempt(cause: string)
    | Feedback(passed: bool, comment: string)

  /** The attempt's row after the action; None when its state forbids the action. */
  function Acted(at: Assignment, action: Action): Option<Assignment> {
    match action
    case Dispatch => if at.status == PendingDispatch then Some(at.(status := Dispatched)) else None
    case TransferDepartment(d) =>
      if at.status == Dispatched && d != at.department then Some(at.(department := d, screener := None)) else None
    case TransferScreener(s) =>
      if at.status == Dispatched && at.screener != Some(s) then Some(at.(screener := Some(s))) else None
    case CancelAttempt(_) => if at.status == PendingDispatch then Some(at.(status := AttemptCancelled)) else None
    case Feedback(passed, _) =>
      if at.status == Dispatched && !at.answered
      then Some(at.(status := if passed then AttemptPassed else AttemptRejected, answered := true)) else None
  }

  /** mutateAttempt; permitted stands for visibility, permissions and the checks of the form. */
  function Mutate(f: File, a: nat, action: Action, permitted: bool, note: string): Option<File> {
    if a >= |f.attempts| || !permitted then None
    else
      match Acted(f.attempts[a], action)
      case None => None
      case Some(at) =>
        var f := Invalidate(f);
        var f := f.(attempts := f.attempts[a := at]);
        match action
        case Feedback(passed, comment) => Answered(f, a, at.resume, passed, comment)
        case CancelAttempt(cause) => Withdrawn(f, at.resume, cause)
        case _ => SetApplication(f, at.resume, if at.status == Dispatched then DepartmentReview else AppPendingDispatch, note)
  }

  function Answered(f: File, a: nat, resume: nat, passed: bool, comment: string): Option<File> {
    match SetApplication(f, resume, if passed then AppPassed else DepartmentRejected, comment)
    case None => None
    case Some(f) =>
      if passed
      then CancelAll(f.(flow := f.flow.(status := WorkflowPassed, passedAttempt := Some(a))), "workflow_passed", {})
      else Some(AfterDepartmentRejection(f))
  }

  function Withdrawn(f: File, resume: nat, cause: string): Option<File> {
    match SetApplication(f, resume, AppCancelled, cause)
    case None => None
    case Some(f) => Some(if HasOpen(f) then f else Archive(f))
  }

  /** The assessed memberships and applications a change of the candidate's facts makes stale. */
  function StaleApps(f: File, n: nat): Option<File>
    requires n <= f.resumes
    decreases n
  {
    if n == 0 then Some(f)
    else
      match StaleApps(f, n - 1)
      case None => None
      case Some(g) => if AppOf(g, n - 1).appStatus == Assessing then SetApplication(g, n - 1, Blocked, "candidate_changed") else Some(g)
  }

  function StaleMembers(f: File, n: nat): (r: Option<File>)
    requires n <= |f.memberships|
    ensures r.Some? ==> |r.value.memberships| == |f.memberships|
    decreases n
  {
    if n == 0 then Some(f)
    else
      match StaleMembers(f, n - 1)
      case None => None
      case Some(g) =>
        var m := g.memberships[n - 1];
        if m.status == PendingAllocation then Restate(g, n - 1, "candidate_changed") else Some(g)
  }

  /** A membership falls back to needs_reanalysis together with its application. */
  function Restate(f: File, m: nat, reason: string): (r: Option<File>)
    requires m < |f.memberships|
    ensures r.Some? ==> |r.value.memberships| == |f.memberships|
  {
    var row := f.memberships[m];
    SetApplication(f.(memberships := f.memberships[m := row.(status := NeedsReanalysis, revision := row.revision + 1)]),
                   row.resume, AppNeedsReanalysis, reason)
  }

  /** invalidateCandidateInputs. */
  function EditCandidate(f: File): Option<File> {
    match StaleApps(Invalidate(f), f.resumes)
    case None => None
    case Some(f) => StaleMembers(f, |f.memberships|)
  }

  /** Queueing a membership by hand, or revising its tags, which only a waiting one allows. */
  function PoolAction(f: File, m: nat, retag: bool, permitted: bool): Option<File> {
    if m >= |f.memberships| || !permitted || f.flow.currentResume != Some(f.memberships[m].resume) then None
    else if !retag then Some(Invalidate(f))
    else if f.memberships[m].status != PendingAllocation then None
    else
      var row := f.memberships[m];
      Some(Invalidate(f).(memberships := f.memberships[m := row.(revision := row.revision + 1)]))
  }

  /** An import that concerns the candidate: it may bring further wishes. */
  function Import(f: File, added: nat): File { Invalidate(f).(resumes := f.resumes + added) }

  /** A changed standard asks for a new assessment of a waiting membership; neither the application
      nor the workflow is touched. */
  function Reconfigure(f: File, m: nat): Option<File> {
    if m >= |f.memberships| || f.memberships[m].status != PendingAllocation then None
    else
      var row := f.memberships[m];
      Some(f.(memberships := f.memberships[m := row.(status := NeedsReanalysis, revision := row.revision + 1)]))
  }

  // ----- runs -----

  /** freezeCase: all wishes of the candidate, those of closed applications marked rejected. */
  function Freeze(f: File, details: seq<Details>): (r: seq<Volunteer>)
    ensures |r| == f.resumes && forall i | 0 <= i < |r| :: r[i].wish == i && (r[i].rejected <==> Closed(AppOf(f, i).appStatus))
  {
    seq(f.resumes, i requires 0 <= i < f.resumes =>
      var d := if i < |details| then details[i] else Details("", "");
      Volunteer(i, d.entity, d.applyDate, Closed(AppOf(f, i).appStatus)))
  }

  function Submit(f: File, force: bool, entity: string, details: seq<Details>, retry: Option<nat>): File {
    f.(runs := f.runs + [RunRow(force, false)],
       items := f.items + [ScopeItem(|f.runs|, Waiting, Some(f.flow.revision), None, Freeze(f, details), entity, retry, false)])
  }

  function CancelRun(f: File, run: nat): File {
    if run < |f.runs| then f.(runs := f.runs[run := f.runs[run].(cancelRequested := true)]) else f
  }

  function CurrentOf(i: ScopeItem): Option<nat> { Current(i.wishes, i.entity, i.retry) }

  /** The run's item that holds the workflow's claim. */
  predicate ClaimedByRun(f: File, run: nat) {
    f.flow.claim.Some? && f.flow.claim.value.item < |f.items| && f.items[f.flow.claim.value.item].run == run
  }

  function StopRun(f: File, run: nat, cancelled: bool): Option<File> {
    var claimed := ClaimedByRun(f, run);
    var stopped := f.(items := Update(f.items, (i: ScopeItem) =>
      if i.run == run && !Terminal(i.state) then i.(state := if cancelled then ItemStopped else ItemError) else i));
    if !claimed then Some(stopped)
    else
      var released := stopped.(flow := f.flow.(claim := None));
      match CurrentOf(f.items[f.flow.claim.value.item])
      case None => Some(released)
      case Some(r) =>
        if AppOf(f, r).appStatus == Assessing then SetApplication(released, r, Blocked, "stopped") else Some(released)
  }

  // ----- background processing -----

  predicate RevisionChanged(i: ScopeItem, flow: Flow) {
    var expected := if i.continuation.Some? then i.continuation else i.submitRevision;
    if expected.None? then flow.revision != 0 else expected.value != flow.revision
  }

  predicate LeaseLive(f: File) { f.flow.claim.Some? && f.flow.claim.value.until > f.now }

  /** retainApplicationWork: the item ends here and the present state is kept. */
  function Retained(f: File, force: bool): Option<File> {
    if f.flow.status == WorkflowPassed || f.flow.status == TalentPool || (f.flow.status == Archived && !force) then Some(f)
    else if HasEffective(f) then Some(f)
    else if (exists m :: 0 <= m < |f.memberships| && f.memberships[m].status == PendingAllocation) && !force then Some(Invalidate(f))
    else None
  }

  function SetItem(f: File, i: nat, state: ItemState): File
    requires i < |f.items|
  {
    f.(items := f.items[i := f.items[i].(state := state)])
  }

  datatype Stage = Admission | Matching

  /** What the frozen snapshot says about the current volunteer. */
  datatype Verdict = Verdict(admitted: bool, ready: bool, unavailable: bool)

  /** prepareItem at the admission or matching stage. */
  function PrepareItem(f: File, i: nat, stage: Stage, v: Verdict): Option<File> {
    if i >= |f.items| || f.items[i].run >= |f.runs| || f.runs[f.items[i].run].cancelRequested then None
    else if Terminal(f.items[i].state) then Some(f)
    else if RevisionChanged(f.items[i], f.flow) then Some(SetItem(f, i, Skipped))
    else if LeaseLive(f) && f.flow.claim.value.item != i then Some(f)
    else
      var force := f.runs[f.items[i].run].force;
      match Retained(f, force)
      case Some(kept) => Some(SetItem(kept, i, Success))
      case None =>
        match CurrentOf(f.items[i])
        case None => Some(if f.items[i].wishes != [] then SetItem(ToTalentPool(f), i, Success) else SetItem(f, i, NeedsAttention))
        case Some(r) => if stage == Admission then Admit(f, i, r, force, v) else MatchJob(f, i, r, v)
  }

  function Admit(f: File, i: nat, r: nat, force: bool, v: Verdict): Option<File>
    requires i < |f.items|
  {
    var forced := if force then CancelAll(f, "rerun", {Ai, Rule}) else Some(f);
    match forced
    case None => None
    case Some(g) =>
      var g := if force then g.(flow := g.flow.(status := InProgress, passedAttempt := None)) else g;
      if v.admitted then Some(g)
      else
        match CancelAll(g, "rerun", {})
        case None => None
        case Some(h) => Some(Ended(Archive(Touch(h, r)), i, Success))
  }

  function MatchJob(f: File, i: nat, r: nat, v: Verdict): Option<File>
    requires i < |f.items|
  {
    if v.ready then Some(f)
    else
      match CancelAll(f, "rerun", {})
      case None => None
      case Some(g) =>
        var h := Touch(g, r);
        if !v.unavailable then Some(Ended(Archive(h), i, NeedsAttention))
        else
          match SetApplication(CloseMembers(h, None), r, Blocked, "unavailable")
          case None => None
          case Some(k) => Some(Ended(k, i, NeedsAttention))
  }

  function Ended(f: File, i: nat, state: ItemState): File { if i < |f.items| then SetItem(f, i, state) else f }

  /** What a worker remembers of its claim. */
  datatype Flight = Flight(item: nat, token: nat, revision: nat)

  /** The first transaction of processItem. */
  function ClaimItem(f: File, i: nat): Option<(File, Option<Flight>)> {
    if i >= |f.items| || f.items[i].run >= |f.runs| || f.runs[f.items[i].run].cancelRequested then None
    else if Terminal(f.items[i].state) then Some((f, None))
    else if RevisionChanged(f.items[i], f.flow) then Some((SetItem(f, i, Skipped), None))
    else
      match Retained(f, f.runs[f.items[i].run].force)
      case Some(kept) => Some((Ended(kept, i, Success), None))
      case None =>
        if LeaseLive(f) then Some((SetItem(f, i, WaitingConflict), None))
        else if CurrentOf(f.items[i]).None? then None
        else
          match SetApplication(f, CurrentOf(f.items[i]).value, Assessing, "assessing")
          case None => None
          case Some(g) =>
            var g := g.(nextToken := f.nextToken + 1,
                        flow := g.flow.(claim := Some(ProcessingClaim(i, f.nextToken, f.now + CLAIM_TIME))));
            Some((Ended(g, i, Processing), Some(Flight(i, f.nextToken, f.flow.revision))))
  }

  predicate Holds(f: File, x: Flight) {
    f.flow.claim.Some? && f.flow.claim.value.item == x.item && f.flow.claim.value.token == x.token
  }

  /** The renewal of the claim while the analysis is under way. */
  function Renew(f: File, x: Flight): File {
    if Holds(f, x) && f.flow.revision == x.revision
    then f.(flow := f.flow.(claim := Some(f.flow.claim.value.(until := f.now + CLAIM_TIME)))) else f
  }

  datatype Analysis = Interrupted | AnalysisFailed(why: string, transient: bool) | Rejected(why: string) | Pooled(why: string)

  /** The second transaction of processItem. */
  function FinishItem(f: File, x: Flight, result: Analysis): Option<File> {
    if x.item >= |f.items| || f.items[x.item].run >= |f.runs| then None
    else if Terminal(f.items[x.item].state) then Some(f)
    else if !Holds(f, x) || f.flow.revision != x.revision then Some(SetItem(f, x.item, Skipped))
    else
      match CurrentOf(f.items[x.item])
      case None => None
      case Some(r) =>
        var f := f.(flow := f.flow.(claim := None));
        if f.runs[f.items[x.item].run].cancelRequested then SetApplication(SetItem(f, x.item, ItemStopped), r, Blocked, "cancelled")
        else if result.Interrupted? then None
        else
          match CancelAll(f, "rerun", {Ai, Rule})
          case None => None
          case Some(g) => Conclude(Touch(g, r), x.item, r, result, f.flow.revision)
  }

  /** The revision is written as one more than the one read under the lock. */
  function Bump(f: File, seen: nat): File { f.(flow := f.flow.(revision := seen + 1)) }

  function Written(f: File, i: nat): File {
    if i < |f.items| then f.(items := f.items[i := f.items[i].(written := true)]) else f
  }

  /** Storing the outcome of an analysis whose claim still holds; seen is the revision of the
      workflow row as read at the start of the transaction. */
  function Conclude(f: File, i: nat, r: nat, result: Analysis, seen: nat): Option<File> {
    match result
    case Interrupted => None
    case AnalysisFailed(why, transient) =>
      (match SetApplication(f, r, Blocked, why)
       case None => None
       case Some(g) => Some(Ended(Bump(g, seen), i, if transient then ItemError else NeedsAttention)))
    case Rejected(why) =>
      (match SetApplication(CloseMembers(f, None), r, AiRejected, why)
       case None => None
       case Some(g) => Some(Continue(Written(Bump(g, seen), i), i, seen + 1)))
    case Pooled(why) =>
      (match SetApplication(CloseMembers(f, None), r, AppPendingAllocation, why)
       case None => None
       case Some(g) =>
         Some(Ended(Written(Bump(g.(memberships := g.memberships + [Membership(r, PendingAllocation, 1)]), seen), i), i, Success)))
  }

  /** The snapshot after its current volunteer was rejected. */
  function Advanced(item: ScopeItem): ScopeItem {
    match CurrentOf(item)
    case None => item.(retry := None)
    case Some(r) => item.(wishes := Reject(item.wishes, r), retry := None)
  }

  /** continueAfterAIRejection: the snapshot is prepared anew; the same item goes on with its next
      volunteer at the given revision, or the candidate is done. */
  function Continue(f: File, i: nat, revision: nat): File {
    if i >= |f.items| then ToTalentPool(f)
    else
      var next := Advanced(f.items[i]);
      match CurrentOf(next)
      case None => Ended(ToTalentPool(f), i, Success)
      case Some(r) =>
        var g := Touch(f, r);
        g.(items := f.items[i := next.(state := Waiting, continuation := Some(revision))])
  }

  // ----- allocation -----

  /** An allocation commit assigns the candidate's pending membership. It does not change the
      workflow revision. */
  function Allocated(f: File, m: nat, department: nat): Option<File> {
    if m >= |f.memberships| then None
    else
      var row := f.memberships[m];
      if row.status != PendingAllocation || f.flow.currentResume != Some(row.resume) || HasEffective(f)
         || f.flow.status in {WorkflowPassed, Archived, WaitingNext, TalentPool}
      then None
      else
        match CreateAttempt(f, row.resume, Ai, department, "allocated")
        case None => None
        case Some(g) =>
          if m < |g.memberships| then
            Some(g.(memberships := g.memberships[m := row.(status := MemberAllocated, revision := row.revision + 1)]))
          else None
  }

  /** The clean-up of an invalid membership when a snapshot is built. */
  function CleanMember(f: File, m: nat): Option<File> {
    if m >= |f.memberships| || f.memberships[m].status !in {PendingAllocation, NeedsReanalysis} then None
    else Restate(f, m, "stale")
  }
}
