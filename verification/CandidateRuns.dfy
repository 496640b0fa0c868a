/** All interleavings of the candidate's transactions: what holds in every run. */
module CandidateRuns {
  import opened AllocationStore
  import opened Preference
  import opened CandidateFile
  import opened CandidateSafety
  import opened CandidateWrites

  /** The stored rows and the claims background workers hold in memory. */
  datatype Desk = Desk(file: File, flights: map<nat, Flight>)

  datatype Event =
    | Assigning(resume: nat, department: nat, receives: bool)
    | Acting(attempt: nat, action: Action, permitted: bool, note: string)
    | Editing
    | Pooling(member: nat, retag: bool, permitted: bool)
    | Importing(added: nat)
    | Submitting(force: bool, entity: string, details: seq<Details>, retry: Option<nat>)
    | Cancelling(run: nat)
    | Stopping(run: nat, cancelled: bool)
    | Preparing(item: nat, stage: Stage, verdict: Verdict)
    | Claiming(worker: nat, item: nat)
    | Renewing(worker: nat)
    | Finishing(worker: nat, result: Analysis)
    | Dying(worker: nat)
    | Allocating(member: nat, department: nat)
    | Cleaning(member: nat)
    | Reconfiguring(member: nat)
    | Clock(now: nat)

  /** Changes people make to the candidate. */
  predicate Human(e: Event) { e.Assigning? || e.Acting? || e.Editing? || e.Pooling? || e.Importing? }

  /** The transaction of an event; None when it is refused. */
  function Transaction(d: Desk, e: Event): Option<File> {
    var f := d.file;
    match e
    case Assigning(r, department, receives) => ManualAssign(f, r, department, receives)
    case Acting(a, action, permitted, note) => Mutate(f, a, action, permitted, note)
    case Editing => EditCandidate(f)
    case Pooling(m, retag, permitted) => PoolAction(f, m, retag, permitted)
    case Importing(added) => Some(Import(f, added))
    case Submitting(force, entity, details, retry) => Some(Submit(f, force, entity, details, retry))
    case Cancelling(run) => Some(CancelRun(f, run))
    case Stopping(run, cancelled) => StopRun(f, run, cancelled)
    case Preparing(i, stage, v) => PrepareItem(f, i, stage, v)
    case Claiming(w, i) => if w in d.flights || ClaimItem(f, i).None? then None else Some(ClaimItem(f, i).value.0)
    case Renewing(w) => if w in d.flights then Some(Renew(f, d.flights[w])) else None
    case Finishing(w, result) => if w in d.flights then FinishItem(f, d.flights[w], result) else None
    case Dying(w) => Some(f)
    case Allocating(m, department) => Allocated(f, m, department)
    case Cleaning(m) => CleanMember(f, m)
    case Reconfiguring(m) => Reconfigure(f, m)
    case Clock(now) => Some(f.(now := if now > f.now then now else f.now))
  }

  function Flights(d: Desk, e: Event): map<nat, Flight> {
    match e
    case Claiming(w, i) =>
      if w !in d.flights && ClaimItem(d.file, i).Some? && ClaimItem(d.file, i).value.1.Some?
      then d.flights[w := ClaimItem(d.file, i).value.1.value] else d.flights
    case Finishing(w, _) => d.flights - {w}
    case Dying(w) => d.flights - {w}
    case _ => d.flights
  }

  function Step(d: Desk, e: Event): Desk {
    Desk(if Transaction(d, e).Some? then Transaction(d, e).value else d.file, Flights(d, e))
  }

  function Play(d: Desk, events: seq<Event>): Desk
    decreases |events|
  {
    if events == [] then d else Play(Step(d, events[0]), events[1..])
  }

  lemma PlayHead(d: Desk, events: seq<Event>)
    requires events != []
    ensures Play(d, events) == Play(Step(d, events[0]), events[1..])
    ensures |events| == 1 ==> Play(d, events) == Step(d, events[0])
  {
    hide Step;
  }

  /** Claims are never newer than the workflow, and a workflow that has passed has left them all behind. */
  ghost predicate Fenced(d: Desk) {
    forall w | w in d.flights ::
      d.flights[w].revision <= d.file.flow.revision
      && (d.file.flow.status == WorkflowPassed ==> d.flights[w].revision < d.file.flow.revision)
  }

  /** Attempts still open have open applications, and claims of the present revision may still write. */
  ghost predicate Workable(d: Desk) { OpenApps(d.file) && forall w | w in d.flights :: LiveFlight(d.file, d.flights[w]) }

  ghost predicate DeskOk(d: Desk) { Sound(d.file) && Fenced(d) && Workable(d) }

  /** A candidate for whom nothing was done yet is in order. */
  lemma FreshDeskOk(d: Desk)
    requires d.file.attempts == [] && d.flights == map[] && d.file.flow.status != WorkflowPassed
    ensures DeskOk(d)
  {}

  lemma TransactionMoves(d: Desk, e: Event)
    requires DeskOk(d) && Transaction(d, e).Some?
    ensures Moves(d.file, Transaction(d, e).value)
    ensures Human(e) ==> Transaction(d, e).value.flow.revision == d.file.flow.revision + 1
  {
    hide Sound, Moves, ManualAssign, Mutate, EditCandidate, StopRun, PrepareItem, ClaimItem, FinishItem, Allocated, CleanMember, Remaining;
    hide Workable, Freeze;
    var f := d.file;
    match e
    case Assigning(r, department, receives) => ManualAssignMoves(f, r, department, receives);
    case Acting(a, action, permitted, note) => MutateMoves(f, a, action, permitted, note);
    case Editing => EditMoves(f);
    case Pooling(m, retag, permitted) => MovesAside(f, PoolAction(f, m, retag, permitted).value);
    case Importing(added) => MovesAside(f, Import(f, added));
    case Submitting(force, entity, details, retry) => MovesAside(f, Submit(f, force, entity, details, retry));
    case Cancelling(run) => MovesAside(f, CancelRun(f, run));
    case Stopping(run, cancelled) => StopMoves(f, run, cancelled);
    case Preparing(i, stage, v) => PrepareMoves(f, i, stage, v);
    case Claiming(w, i) => ClaimMoves(f, i);
    case Renewing(w) => MovesAside(f, Renew(f, d.flights[w]));
    case Finishing(w, result) => FinishMoves(f, d.flights[w], result);
    case Dying(_) => MovesNot(f);
    case Allocating(m, department) => AllocatedMoves(f, m, department);
    case Cleaning(m) => CleanMoves(f, m);
    case Reconfiguring(m) => MovesAside(f, Reconfigure(f, m).value);
    case Clock(now) => MovesAside(f, f.(now := if now > f.now then now else f.now));
  }

  lemma CleanMoves(f: File, m: nat)
    requires Sound(f) && CleanMember(f, m).Some?
    ensures Moves(f, CleanMember(f, m).value)
  {
    hide Sound, Moves, Restate;
    RestateMoves(f, m, "stale");
  }

  /** The transaction stores an outcome of an analysis. */
  predicate Outcome(d: Desk, e: Event) {
    && e.Finishing? && e.worker in d.flights && Held(d.file, d.flights[e.worker])
    && !d.file.runs[d.file.items[d.flights[e.worker].item].run].cancelRequested && !e.result.Interrupted?
  }

  /** Apart from assignments, actions on attempts, submissions, allocations and stored outcomes,
      transactions leave applications open, snapshots frozen and memberships unqueued. */
  lemma TransactionQuiet(d: Desk, e: Event)
    requires DeskOk(d) && Transaction(d, e).Some?
    requires !e.Assigning? && !e.Acting? && !e.Submitting? && !e.Allocating? && !Outcome(d, e)
    ensures var g := Transaction(d, e).value;
            Quiet(d.file, g) && |g.attempts| == |d.file.attempts| && (g.attempts == d.file.attempts || !HasEffective(d.file))
  {
    hide Sound, EditCandidate, StopRun, PrepareItem, ClaimItem, FinishItem, Restate;
    hide Quiet, OpenApps, LiveFlight, Held, Current, Freeze, HasEffective;
    var f := d.file;
    QuietNot(f);
    match e {
      case Editing => EditQuiet(f);
      case Pooling(m, retag, permitted) => PoolQuiet(f, m, retag, permitted);
      case Importing(added) => RowsAppended(f, Import(f, added));
      case Cancelling(run) => RowsAppended(f, CancelRun(f, run));
      case Stopping(run, cancelled) => StopQuiet(f, run, cancelled);
      case Preparing(i, stage, v) => PrepareQuiet(f, i, stage, v);
      case Claiming(w, i) => ClaimQuiet(f, i);
      case Renewing(w) => FlowQuiet(f, Renew(f, d.flights[w]));
      case Finishing(w, result) =>
        assert LiveFlight(f, d.flights[w]);
        if Held(f, d.flights[w]) {
          HeldWrites(f, d.flights[w], result);
        } else {
          UnheldWrites(f, d.flights[w], result);
        }
      case Dying(_) =>
      case Cleaning(m) => RestateQuiet(f, m, "stale");
      case Reconfiguring(m) => ReconfigureQuiet(f, m);
      case Clock(now) => FlowQuiet(f, f.(now := if now > f.now then now else f.now));
    }
  }

  /** Runs may be cancelled and further wishes may come in. */
  lemma RowsAppended(a: File, b: File)
    requires b.apps == a.apps && b.memberships == a.memberships && a.resumes <= b.resumes
    requires b.items == a.items && RunsKept(a, b)
    ensures Quiet(a, b)
  {
    hide Closed;
    QuietAside(a, b);
  }

  lemma SubmitSteady(f: File, force: bool, entity: string, details: seq<Details>, retry: Option<nat>)
    ensures Steady(f, Submit(f, force, entity, details, retry))
  {
    hide Closed, Freeze, Terminal;
    var g := Submit(f, force, entity, details, retry);
    assert forall i | 0 <= i < |f.items| :: g.items[i] == f.items[i];
  }

  /** While the revision stays, nothing happens that a claim of that revision would have to know. */
  lemma TransactionSteady(d: Desk, e: Event)
    requires DeskOk(d) && Transaction(d, e).Some?
    ensures var g := Transaction(d, e).value;
            OpenApps(g) && (g.flow.revision == d.file.flow.revision ==> Steady(d.file, g))
  {
    hide Sound, ManualAssign, Mutate, EditCandidate, StopRun, PrepareItem, ClaimItem, FinishItem, Allocated, CleanMember;
    hide OpenApps, LiveFlight, Held, Current, Freeze, NoneCloses, NoneQueued, NoneAllocated, HasEffective, LogMoves, AllClosed, SameSnapshot;
    var f, g := d.file, Transaction(d, e).value;
    TransactionMoves(d, e);
    if e.Assigning? {
      AssignQuiet(f, e.resume, e.department, e.receives);
    } else if e.Acting? {
      MutateQuiet(f, e.attempt, e.action, e.permitted, e.note);
    } else if e.Submitting? {
      SubmitSteady(f, e.force, e.entity, e.details, e.retry);
      OpenAppsSame(f, g);
    } else if e.Allocating? {
      AllocatedQuiet(f, e.member, e.department);
    } else if Outcome(d, e) {
      assert LiveFlight(f, d.flights[e.worker]);
      HeldWrites(f, d.flights[e.worker], e.result);
      NothingOpen(g);
    } else {
      TransactionQuiet(d, e);
      OpenAppsKept(f, g);
    }
  }

  lemma WorkableKept(d: Desk, e: Event)
    requires DeskOk(d)
    ensures Workable(Step(d, e))
  {
    hide Sound, Moves, Transaction, OpenApps, LiveFlight, Steady, ClaimItem;
    if Transaction(d, e).Some? {
      TransactionSteady(d, e);
      TransactionMoves(d, e);
    }
    var g := Step(d, e).file;
    forall w | w in Step(d, e).flights ensures LiveFlight(g, Step(d, e).flights[w]) {
      if w in d.flights && Step(d, e).flights[w] == d.flights[w] {
        if Transaction(d, e).Some? {
          LiveKept(d.file, g, d.flights[w]);
        }
      } else {
        ClaimIsLive(d, e);
      }
    }
  }

  lemma ClaimIsLive(d: Desk, e: Event)
    requires DeskOk(d) && e.Claiming? && e.worker !in d.flights
    requires ClaimItem(d.file, e.item).Some? && ClaimItem(d.file, e.item).value.1.Some?
    ensures LiveFlight(Step(d, e).file, ClaimItem(d.file, e.item).value.1.value)
  {
    hide ClaimItem, Current, Closed, Quiet, Moves, Sound;
    ClaimQuiet(d.file, e.item);
    ClaimMoves(d.file, e.item);
    EffectiveSame(d.file, Step(d, e).file);
  }

  lemma StepMoves(d: Desk, e: Event)
    requires DeskOk(d)
    ensures Moves(d.file, Step(d, e).file) && DeskOk(Step(d, e))
  {
    hide Sound, Moves, Transaction, LogMoves, Workable;
    MovesNot(d.file);
    if Transaction(d, e).Some? {
      TransactionMoves(d, e);
    }
    MovesFacts(d.file, Step(d, e).file);
    FlightsFenced(d, e);
    WorkableKept(d, e);
  }

  lemma MovesFacts(a: File, b: File)
    requires Moves(a, b)
    ensures Sound(b) && a.flow.revision <= b.flow.revision
    ensures b.flow.status == WorkflowPassed ==> a.flow.status == WorkflowPassed || a.flow.revision < b.flow.revision
  {}

  lemma FlightsFenced(d: Desk, e: Event)
    requires DeskOk(d) && Moves(d.file, Step(d, e).file)
    ensures Fenced(Step(d, e))
  {
    hide Sound, Moves, ClaimItem, FinishItem, ManualAssign, Mutate, EditCandidate, StopRun, PrepareItem, Allocated, CleanMember;
    MovesFacts(d.file, Step(d, e).file);
    if e.Claiming? && ClaimItem(d.file, e.item).Some? {
      ClaimMoves(d.file, e.item);
      MovesFacts(d.file, ClaimItem(d.file, e.item).value.0);
    }
  }

  lemma {:induction false} PlayMoves(d: Desk, events: seq<Event>)
    requires DeskOk(d)
    ensures Moves(d.file, Play(d, events).file) && DeskOk(Play(d, events))
    decreases |events|
  {
    hide Moves, DeskOk, Step;
    if events == [] {
      StartMoves(d);
    } else {
      StepMoves(d, events[0]);
      PlayMoves(Step(d, events[0]), events[1..]);
      MovesOn(d.file, Step(d, events[0]).file, Play(d, events).file);
    }
  }

  lemma StartMoves(d: Desk)
    requires DeskOk(d)
    ensures Moves(d.file, d.file)
  {
    hide Moves;
    MovesNot(d.file);
  }

  // ----- one effective attempt -----

  /** In every reachable state the candidate has at most one effective attempt, and the workflow has
      passed exactly when an attempt has. */
  lemma OneEffectiveAlways(d: Desk, events: seq<Event>, i: nat, j: nat)
    requires DeskOk(d) && i < |Play(d, events).file.attempts| && j < |Play(d, events).file.attempts|
    requires EffectiveStatus(Play(d, events).file.attempts[i].status) && EffectiveStatus(Play(d, events).file.attempts[j].status)
    ensures i == j
    ensures Play(d, events).file.attempts[i].status == AttemptPassed <==> Play(d, events).file.flow.status == WorkflowPassed
  {
    hide Moves, Play;
    PlayMoves(d, events);
  }

  /** A pass is final: neither the attempt nor the workflow ever leaves it. */
  lemma PassedForever(d: Desk, events: seq<Event>, i: nat)
    requires DeskOk(d) && i < |d.file.attempts| && d.file.attempts[i].status == AttemptPassed
    ensures var f := Play(d, events).file;
            i < |f.attempts| && f.attempts[i].status == AttemptPassed && f.flow.status == WorkflowPassed
  {
    hide Play, LogMoves;
    PlayMoves(d, events);
  }

  // ----- the event log -----

  /** Replaying the events of any run takes every application from its first status to its last. */
  lemma EventLogReplays(d: Desk, events: seq<Event>, r: nat)
    requires DeskOk(d)
    ensures var a, b := d.file, Play(d, events).file;
            && |a.events| <= |b.events| && b.events[..|a.events|] == a.events
            && Replay(b.events[|a.events|..], r, AppOf(a, r).appStatus) == Some(AppOf(b, r).appStatus)
  {
    hide Play, Sound;
    PlayMoves(d, events);
    assert AppMoves(d.file, Play(d, events).file, Play(d, events).file.events[|d.file.events|..], r);
  }

  /** A closed application keeps its status, reason and completion time, and gets no more events. */
  lemma ClosedForever(d: Desk, events: seq<Event>, r: nat)
    requires DeskOk(d) && Closed(AppOf(d.file, r).appStatus)
    ensures var a, b := d.file, Play(d, events).file;
            && AppOf(b, r) == AppOf(a, r)
            && |a.events| <= |b.events| && forall e | e in b.events[|a.events|..] :: e.resume != r
  {
    hide Play, Sound, Replay, Closed;
    PlayMoves(d, events);
    assert AppMoves(d.file, Play(d, events).file, Play(d, events).file.events[|d.file.events|..], r);
  }

  /** Whenever a candidate has entered the talent pool, in whatever run, every application it had
      at the start is closed. */
  lemma TalentPoolOnlyWhenAllClosed(d: Desk, events: seq<Event>, r: nat)
    requires DeskOk(d) && d.file.flow.status != TalentPool && Play(d, events).file.flow.status == TalentPool
    requires r < d.file.resumes
    ensures Closed(AppOf(Play(d, events).file, r).appStatus)
  {
    hide Sound, LogMoves, Closed, Play;
    PlayMoves(d, events);
  }

  // ----- no human edit is lost -----

  /** Revisions never decrease, and every human change that is carried out raises them. */
  lemma RevisionsGrow(d: Desk, e: Event)
    requires DeskOk(d)
    ensures d.file.flow.revision <= Step(d, e).file.flow.revision
    ensures Human(e) && Transaction(d, e).Some? ==> Step(d, e).file.flow.revision == d.file.flow.revision + 1
  {
    hide Sound, Moves, Transaction;
    StepMoves(d, e);
    MovesFacts(d.file, Step(d, e).file);
    if Transaction(d, e).Some? {
      TransactionMoves(d, e);
    }
  }

  /** Some human change of the run was carried out. */
  ghost predicate HumanActed(d: Desk, events: seq<Event>)
    decreases |events|
  {
    events != [] && ((Human(events[0]) && Transaction(d, events[0]).Some?) || HumanActed(Step(d, events[0]), events[1..]))
  }

  lemma {:induction false} HumanRaisesRevision(d: Desk, events: seq<Event>)
    requires DeskOk(d)
    ensures d.file.flow.revision <= Play(d, events).file.flow.revision
    ensures HumanActed(d, events) ==> d.file.flow.revision < Play(d, events).file.flow.revision
    decreases |events|
  {
    hide DeskOk, Transaction, Step;
    if events != [] {
      RevisionsGrow(d, events[0]);
      StepStaysOk(d, events[0]);
      HumanRaisesRevision(Step(d, events[0]), events[1..]);
    }
  }

  lemma StepStaysOk(d: Desk, e: Event)
    requires DeskOk(d)
    ensures DeskOk(Step(d, e))
  {
    hide DeskOk, Step, Moves;
    StepMoves(d, e);
  }

  /** The transaction of a finished analysis stores its outcome: anything of the candidate but the
      item and the claim changes. */
  ghost predicate Stores(f: File, x: Flight, result: Analysis) {
    FinishItem(f, x, result).Some? && FinishItem(f, x, result).value.flow.revision != f.flow.revision
  }

  /** An outcome is stored exactly when claim and revision are still those taken, the item is not
      finished, the run is not to be cancelled and the analysis was not interrupted: under these
      conditions the writes themselves always go through. */
  lemma StoredExactlyWhen(d: Desk, w: nat, result: Analysis)
    requires DeskOk(d) && w in d.flights
    ensures Stores(d.file, d.flights[w], result) <==> Outcome(d, Finishing(w, result))
  {
    hide Sound, FinishItem, Held, LiveFlight, OpenApps, Quiet;
    assert LiveFlight(d.file, d.flights[w]);
    if Held(d.file, d.flights[w]) {
      HeldIndices(d.file, d.flights[w]);
      HeldWrites(d.file, d.flights[w], result);
    } else if FinishItem(d.file, d.flights[w], result).Some? {
      UnheldWrites(d.file, d.flights[w], result);
    }
  }

  /** A held claim's transaction is refused exactly when the analysis was interrupted and the run
      is not to be cancelled. */
  lemma RefusedExactlyWhen(d: Desk, w: nat, result: Analysis)
    requires DeskOk(d) && w in d.flights && Held(d.file, d.flights[w])
    ensures Transaction(d, Finishing(w, result)).None? <==>
              !d.file.runs[d.file.items[d.flights[w].item].run].cancelRequested && result.Interrupted?
  {
    hide Sound, FinishItem, LiveFlight, OpenApps, Quiet, StoredRows, Transaction;
    FinishingIs(d, Finishing(w, result));
    assert LiveFlight(d.file, d.flights[w]);
    HeldIndices(d.file, d.flights[w]);
    HeldWrites(d.file, d.flights[w], result);
  }

  lemma FinishingIs(d: Desk, e: Event)
    requires e.Finishing? && e.worker in d.flights
    ensures Transaction(d, e) == FinishItem(d.file, d.flights[e.worker], e.result)
  {}

  lemma HeldIndices(f: File, x: Flight)
    requires Held(f, x)
    ensures x.item < |f.items| && f.items[x.item].run < |f.runs|
  {}

  lemma StoredOnlyWhen(f: File, x: Flight, result: Analysis)
    requires Stores(f, x, result)
    ensures Held(f, x) && !f.runs[f.items[x.item].run].cancelRequested
  {
    hide SetApplication, CancelAll, Conclude, Touch, Quiet, Current, LogMoves;
    if !Held(f, x) {
      UnheldWrites(f, x, result);
    } else {
      var g := SetItem(f.(flow := f.flow.(claim := None)), x.item, ItemStopped);
      if f.runs[f.items[x.item].run].cancelRequested {
        SetApplicationMoves(g, CurrentOf(f.items[x.item]).value, Blocked, "cancelled");
      }
    }
  }

  /** If an analysis stores its outcome, no human change was carried out since its claim: every
      later human edit, in any interleaving, wins over the analysis. */
  lemma NoHumanEditLost(d: Desk, w: nat, item: nat, events: seq<Event>, result: Analysis)
    requires DeskOk(d) && w !in d.flights && ClaimItem(d.file, item).Some? && ClaimItem(d.file, item).value.1.Some?
    requires var claimed, x := Step(d, Claiming(w, item)), ClaimItem(d.file, item).value.1.value;
             Stores(Play(claimed, events).file, x, result)
    ensures var claimed, x := Step(d, Claiming(w, item)), ClaimItem(d.file, item).value.1.value;
            var f := Play(claimed, events).file;
            && !HumanActed(claimed, events) && f.flow.revision == x.revision == claimed.file.flow.revision
            && Held(f, x) && !f.runs[f.items[x.item].run].cancelRequested
  {
    hide Sound, Moves, ClaimItem, FinishItem, Holds, Play, HumanActed, Stores, Workable;
    var claimed, x := Step(d, Claiming(w, item)), ClaimItem(d.file, item).value.1.value;
    ClaimMoves(d.file, item);
    StepStaysOk(d, Claiming(w, item));
    HumanRaisesRevision(claimed, events);
    StoredOnlyWhen(Play(claimed, events).file, x, result);
  }

  /** And the other way round: after a human change the finished analysis leaves everything but its
      own item as it is. */
  lemma StaleAnalysisWritesNothing(d: Desk, w: nat, item: nat, events: seq<Event>, result: Analysis)
    requires DeskOk(d) && w !in d.flights && ClaimItem(d.file, item).Some? && ClaimItem(d.file, item).value.1.Some?
    requires HumanActed(Step(d, Claiming(w, item)), events)
    ensures var f := Play(Step(d, Claiming(w, item)), events).file;
            var done := FinishItem(f, ClaimItem(d.file, item).value.1.value, result);
            done.Some? ==> done.value == f.(items := done.value.items)
  {
    hide Sound, Moves, ClaimItem, Play, HumanActed, Holds, CancelAll, Conclude, Touch, SetApplication;
    ClaimMoves(d.file, item);
    StepStaysOk(d, Claiming(w, item));
    HumanRaisesRevision(Step(d, Claiming(w, item)), events);
  }
}
