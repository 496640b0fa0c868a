/** Whether an allocated membership is backed by an attempt: not always, and exactly when not. */
module CandidateBacking {
  import opened Orders
  import opened AllocationStore
  import opened Preference
  import opened CandidateFile
  import opened CandidateSafety
  import opened CandidateWrites
  import opened CandidateRuns

  predicate Backs(at: Assignment) { at.status == AttemptPassed || (EffectiveStatus(at.status) && at.source == Ai) }

  /** If a membership is allocated, an effective attempt of the engine, or a passed one, exists. */
  ghost predicate Backed(f: File) { HasAllocated(f) ==> exists k :: 0 <= k < |f.attempts| && Backs(f.attempts[k]) }

  /** The event stores a failed analysis whose volunteer is the one a membership is allocated for.
      All of this can be read off the rows before the transaction. */
  predicate Strands(d: Desk, e: Event) {
    && Outcome(d, e) && e.result.AnalysisFailed?
    && var current := CurrentOf(d.file.items[d.flights[e.worker].item]);
       current.Some? && HasAllocatedOf(d.file, current.value)
  }

  lemma BackedIsEffective(f: File)
    requires Backed(f) && !HasEffective(f)
    ensures !HasAllocated(f)
  {}

  lemma UnallocatedBacked(f: File)
    requires !HasAllocated(f)
    ensures Backed(f)
  {}

  lemma SameAttemptsBacked(a: File, b: File)
    requires Backed(a) && NoneAllocated(a, b) && b.attempts == a.attempts
    ensures Backed(b)
  {
    hide Backs;
    if HasAllocated(b) {
      var m :| 0 <= m < |b.memberships| && b.memberships[m].status == MemberAllocated;
      assert a.memberships[m].status == MemberAllocated;
    }
  }

  lemma ActingBacked(f: File, a: nat, action: Action, permitted: bool, note: string)
    requires Sound(f) && OpenApps(f) && Backed(f) && Mutate(f, a, action, permitted, note).Some?
    ensures Backed(Mutate(f, a, action, permitted, note).value)
  {
    hide ItemsKept, OpenApps, SetApplication, Answered, Withdrawn;
    MutateQuiet(f, a, action, permitted, note);
    var g := Mutate(f, a, action, permitted, note).value;
    if HasAllocated(g) {
      StaysUnallocatedBack(f, g);
      assert OpenStatus(f.attempts[a].status);
      var k :| 0 <= k < |f.attempts| && Backs(f.attempts[k]);
      assert k == a;
      assert Backs(g.attempts[a]);
    }
  }

  lemma StaysUnallocatedBack(a: File, b: File)
    requires NoneAllocated(a, b) && HasAllocated(b)
    ensures HasAllocated(a)
  {}

  lemma AllocatingBacked(f: File, m: nat, department: nat)
    requires Allocated(f, m, department).Some?
    ensures Backed(Allocated(f, m, department).value)
  {
    hide Allocated, NoneCloses, ItemsKept, NoneQueued, OpenApps;
    AllocatedQuiet(f, m, department);
    assert Backs(Allocated(f, m, department).value.attempts[|f.attempts|]);
  }

  /** From a backed state every event, in whatever interleaving, leaves the state backed if and only
      if it is not such a failure; and such a failure leaves the candidate without any effective
      attempt beside the allocated membership. */
  lemma BackingLostExactlyWhen(d: Desk, e: Event)
    requires DeskOk(d) && Backed(d.file)
    ensures Backed(Step(d, e).file) <==> !Strands(d, e)
    ensures Strands(d, e) ==> HasAllocated(Step(d, e).file) && !HasEffective(Step(d, e).file)
  {
    hide Sound, Transaction, Backed, OpenApps, LiveFlight, Held, Current, HasAllocated, HasAllocatedOf, HasEffective;
    hide ItemsKept, NoneCloses, NoneQueued, NoneAllocated, RejectionRow;
    var f, g := d.file, Step(d, e).file;
    if Outcome(d, e) {
      OutcomeBacked(d, e);
    } else if Transaction(d, e).Some? {
      if e.Assigning? {
        AssigningIs(d, e);
        AssignQuiet(f, e.resume, e.department, e.receives);
        UnallocatedBacked(g);
      } else if e.Acting? {
        ActingIs(d, e);
        ActingBacked(f, e.attempt, e.action, e.permitted, e.note);
      } else if e.Allocating? {
        AllocatingIs(d, e);
        AllocatingBacked(f, e.member, e.department);
      } else if e.Submitting? {
        SubmittingIs(d, e);
        SameMembers(f, g);
        SameAttemptsBacked(f, g);
      } else {
        TransactionQuiet(d, e);
        QuietParts(f, g);
        if g.attempts == f.attempts {
          SameAttemptsBacked(f, g);
        } else {
          BackedIsEffective(f);
          StaysUnallocated(f, g);
          UnallocatedBacked(g);
        }
      }
    }
  }

  lemma AssigningIs(d: Desk, e: Event)
    requires e.Assigning?
    ensures Transaction(d, e) == ManualAssign(d.file, e.resume, e.department, e.receives)
  {}

  lemma ActingIs(d: Desk, e: Event)
    requires e.Acting?
    ensures Transaction(d, e) == Mutate(d.file, e.attempt, e.action, e.permitted, e.note)
  {}

  lemma AllocatingIs(d: Desk, e: Event)
    requires e.Allocating?
    ensures Transaction(d, e) == Allocated(d.file, e.member, e.department)
  {}

  lemma SubmittingIs(d: Desk, e: Event)
    requires e.Submitting?
    ensures Transaction(d, e) == Some(Submit(d.file, e.force, e.entity, e.details, e.retry))
  {}

  lemma OutcomeBacked(d: Desk, e: Event)
    requires DeskOk(d) && Outcome(d, e)
    ensures Transaction(d, e).Some?
    ensures Backed(Step(d, e).file) <==> !Strands(d, e)
    ensures Strands(d, e) ==> HasAllocated(Step(d, e).file) && !HasEffective(Step(d, e).file)
  {
    hide Sound, FinishItem, OpenApps, LiveFlight, Current, HasAllocated, HasAllocatedOf, ItemsKept, NoneCloses, NoneAllocated, RejectionRow;
    var f, x := d.file, d.flights[e.worker];
    assert LiveFlight(f, x);
    HeldWrites(f, x, e.result);
    LiveCurrent(f, x);
    var g := FinishItem(f, x, e.result).value;
    UnbackedMeans(g);
  }

  lemma UnbackedMeans(f: File)
    requires !HasEffective(f)
    ensures Backed(f) <==> !HasAllocated(f)
  {}

  lemma LiveCurrent(f: File, x: Flight)
    requires LiveFlight(f, x) && Held(f, x)
    ensures CurrentOf(f.items[x.item]).Some?
  {}

  // ----- runs that are not forced -----

  /** No run is forced, and claims of the present revision saw nobody waiting in the pool. */
  ghost predicate Unforced(d: Desk) {
    && (forall k | 0 <= k < |d.file.runs| :: !d.file.runs[k].force)
    && (forall w | w in d.flights && d.flights[w].revision == d.file.flow.revision :: NobodyQueued(d.file))
  }

  predicate NobodyQueued(f: File) { forall m | 0 <= m < |f.memberships| :: !Queued(f.memberships[m]) }

  predicate Forces(e: Event) { e.Submitting? && e.force }

  lemma UnforcedNeverStrands(d: Desk, e: Event)
    requires Unforced(d)
    ensures !Strands(d, e)
  {
    hide Current;
  }

  lemma RunsStay(d: Desk, e: Event)
    requires DeskOk(d) && Transaction(d, e).Some? && !e.Submitting?
    ensures RunsKept(d.file, Transaction(d, e).value)
  {
    hide Sound, Current, OpenApps, LiveFlight, Held, SameSnapshot, NoneCloses, NoneQueued, NoneAllocated, FinishItem, Mutate, ManualAssign, Allocated;
    hide Transaction, HasEffective;
    var f, g := d.file, Transaction(d, e).value;
    if e.Assigning? {
      AssigningIs(d, e);
      AssignQuiet(f, e.resume, e.department, e.receives);
    } else if e.Acting? {
      ActingIs(d, e);
      MutateQuiet(f, e.attempt, e.action, e.permitted, e.note);
    } else if e.Allocating? {
      AllocatingIs(d, e);
      AllocatedQuiet(f, e.member, e.department);
    } else if Outcome(d, e) {
      FinishingIs(d, e);
      assert LiveFlight(f, d.flights[e.worker]);
      HeldWrites(f, d.flights[e.worker], e.result);
    } else {
      TransactionQuiet(d, e);
    }
  }

  lemma UnforcedStep(d: Desk, e: Event)
    requires DeskOk(d) && Backed(d.file) && Unforced(d) && !Forces(e)
    ensures Unforced(Step(d, e)) && Backed(Step(d, e).file)
  {
    hide Sound, Moves, Backed, Transaction, OpenApps, LiveFlight, Strands, ClaimItem, NobodyQueued;
    UnforcedNeverStrands(d, e);
    BackingLostExactlyWhen(d, e);
    var f, n := d.file, Step(d, e);
    if Transaction(d, e).Some? {
      UnforcedRuns(d, e);
      TransactionSteady(d, e);
      TransactionMoves(d, e);
      MovesFacts(f, n.file);
    }
    forall w | w in n.flights && n.flights[w].revision == n.file.flow.revision ensures NobodyQueued(n.file) {
      if w in d.flights && n.flights[w] == d.flights[w] {
        if Transaction(d, e).Some? {
          FlightBehind(d, w);
          NobodyQueuedStays(f, n.file);
        }
      } else {
        ClaimSeesNobody(d, e);
      }
    }
  }

  lemma FlightBehind(d: Desk, w: nat)
    requires DeskOk(d) && w in d.flights
    ensures d.flights[w].revision <= d.file.flow.revision
  {}

  lemma UnforcedRuns(d: Desk, e: Event)
    requires DeskOk(d) && Transaction(d, e).Some? && !Forces(e)
    requires forall k | 0 <= k < |d.file.runs| :: !d.file.runs[k].force
    ensures forall k | 0 <= k < |Step(d, e).file.runs| :: !Step(d, e).file.runs[k].force
  {
    hide DeskOk, Transaction, Freeze;
    if e.Submitting? {
      SubmittingIs(d, e);
    } else {
      RunsStay(d, e);
    }
  }

  lemma NobodyQueuedStays(a: File, b: File)
    requires NobodyQueued(a) && (b.flow.revision == a.flow.revision ==> Steady(a, b)) && b.flow.revision == a.flow.revision
    ensures NobodyQueued(b)
  {
    hide NoneCloses, ItemsGrow, NewByEngine;
  }

  lemma ClaimSeesNobody(d: Desk, e: Event)
    requires DeskOk(d) && Backed(d.file) && Unforced(d) && e.Claiming? && e.worker !in d.flights
    requires ClaimItem(d.file, e.item).Some? && ClaimItem(d.file, e.item).value.1.Some?
    ensures NobodyQueued(Step(d, e).file)
  {
    hide Sound, Moves, Backed, OpenApps, LiveFlight, ClaimItem, Current, Closed, HasEffective;
    ClaimQuiet(d.file, e.item);
    BackedIsEffective(d.file);
    var g := ClaimItem(d.file, e.item).value.0;
    QuietParts(d.file, g);
    StaysUnallocated(d.file, g);
    assert g.runs[g.items[e.item].run].force == d.file.runs[g.items[e.item].run].force;
  }

  /** As long as no run is forced, an allocated membership is backed in every reachable state. */
  lemma {:induction false} UnforcedRunsKeepBacking(d: Desk, events: seq<Event>)
    requires DeskOk(d) && Backed(d.file) && Unforced(d) && forall e | e in events :: !Forces(e)
    ensures Backed(Play(d, events).file)
    decreases |events|
  {
    hide DeskOk, Backed, Unforced, Step, Forces;
    if events != [] {
      UnforcedStep(d, events[0]);
      StepStaysOk(d, events[0]);
      UnforcedRunsKeepBacking(Step(d, events[0]), events[1..]);
    }
  }

  // ----- a run that strands a membership -----

  /** A candidate with one wish for whom nothing was done yet. */
  function Newcomer(): Desk {
    Desk(File(0, 1, Flow(WorkflowOpen, 0, None, None, None), 1, map[], [], [], [], [], []), map[])
  }

  /** An ordinary run admits the candidate to the pool. */
  function Screening(): seq<Event> { [Submitting(false, "", [], None), Claiming(0, 0), Finishing(0, Pooled("fit"))] }

  /** A forced run analyses the candidate anew while an allocation commits, and then fails. */
  function Collision(): seq<Event> {
    [Submitting(true, "", [], None), Claiming(0, 1), Allocating(0, 5), Finishing(0, AnalysisFailed("timeout", true))]
  }

  const WISH := Volunteer(0, "", "", false)

  function Submitted(run: nat, revision: nat, state: ItemState): ScopeItem {
    ScopeItem(run, state, Some(revision), None, [WISH], "", None, false)
  }

  lemma WishIsCurrent(item: ScopeItem)
    requires item.wishes == [WISH] && item.entity == "" && item.retry == None
    ensures CurrentOf(item) == Some(0)
  {
    assert SortBy(ByPreference(""), [WISH]) == [WISH];
  }

  /** The candidate waits in the pool, without any attempt and with nothing under way. */
  predicate Waits(d: Desk) {
    var f := d.file;
    && d.flights == map[] && f.resumes == 1 && f.attempts == [] && f.memberships == [Membership(0, PendingAllocation, 1)]
    && f.flow.status == InProgress && f.flow.currentResume == Some(0) && f.flow.claim == None
    && |f.items| == 1 && |f.runs| == 1 && AppOf(f, 0).appStatus == AppPendingAllocation
  }

  lemma ScreeningSubmits()
    ensures Step(Newcomer(), Screening()[0])
         == Desk(Newcomer().file.(runs := [RunRow(false, false)], items := [Submitted(0, 0, CandidateFile.Waiting)]), map[])
  {
    assert Freeze(Newcomer().file, []) == [WISH];
  }

  /** The first claim. */
  lemma ScreeningClaims(d: Desk)
    requires d == Desk(Newcomer().file.(runs := [RunRow(false, false)], items := [Submitted(0, 0, CandidateFile.Waiting)]), map[])
    ensures var f := Step(d, Claiming(0, 0)).file;
            && Step(d, Claiming(0, 0)).flights == map[0 := Flight(0, 1, 0)]
            && f.items == [Submitted(0, 0, Processing)] && f.runs == [RunRow(false, false)] && f.memberships == []
            && f.attempts == [] && f.resumes == 1 && AppOf(f, 0).appStatus == Assessing
            && f.flow == Flow(WorkflowOpen, 0, None, Some(ProcessingClaim(0, 1, CLAIM_TIME)), None)
  {
    hide Current, Freeze;
    var f := d.file;
    WishIsCurrent(f.items[0]);
    assert Retained(f, false) == None;
    var g := SetApplication(f, 0, Assessing, "assessing").value;
    assert ClaimItem(f, 0).Some?;
  }

  lemma ScreeningPools(d: Desk)
    requires d.flights == map[0 := Flight(0, 1, 0)]
    requires d.file.items == [Submitted(0, 0, Processing)] && d.file.runs == [RunRow(false, false)] && d.file.memberships == []
    requires d.file.attempts == [] && d.file.resumes == 1 && AppOf(d.file, 0).appStatus == Assessing
    requires d.file.flow == Flow(WorkflowOpen, 0, None, Some(ProcessingClaim(0, 1, CLAIM_TIME)), None)
    ensures Waits(Step(d, Finishing(0, Pooled("fit"))))
  {
    hide Current;
    var f := d.file;
    WishIsCurrent(f.items[0]);
    var g := f.(flow := f.flow.(claim := None));
    assert CancelAll(g, "rerun", {Ai, Rule}) == Some(g);
    assert Touch(g, 0).memberships == [];
    assert CloseMembers(Touch(g, 0), None).memberships == [];
  }

  /** The claim of the forced run. */
  lemma CollisionClaims(d: Desk)
    requires Waits(d)
    ensures var n := Step(Step(d, Collision()[0]), Collision()[1]);
            && n.flights == map[0 := Flight(1, d.file.nextToken, d.file.flow.revision)]
            && |n.file.items| == 2 && n.file.items[1] == Submitted(1, d.file.flow.revision, Processing)
            && |n.file.runs| == 2 && n.file.runs[1] == RunRow(true, false)
            && n.file.memberships == d.file.memberships && n.file.attempts == [] && n.file.resumes == 1
            && AppOf(n.file, 0).appStatus == Assessing
            && n.file.flow == d.file.flow.(claim := Some(ProcessingClaim(1, d.file.nextToken, d.file.now + CLAIM_TIME)))
  {
    hide Current;
    var f := Step(d, Collision()[0]).file;
    assert Freeze(d.file, []) == [WISH];
    assert f.items[1] == Submitted(1, d.file.flow.revision, CandidateFile.Waiting);
    WishIsCurrent(f.items[1]);
    assert Retained(f, true) == None;
    assert ClaimItem(f, 1).Some?;
  }

  /** The allocation commits although the analysis is under way. */
  lemma Placed(d: Desk)
    requires d.file.memberships == [Membership(0, PendingAllocation, 1)] && d.file.attempts == []
    requires d.file.resumes == 1 && AppOf(d.file, 0).appStatus == Assessing
    requires d.file.flow.status == InProgress && d.file.flow.currentResume == Some(0)
    ensures var n := Step(d, Allocating(0, 5));
            && n.file.memberships == [Membership(0, MemberAllocated, 2)] && n.file.flow == d.file.flow
            && n.file.items == d.file.items && n.file.runs == d.file.runs && n.flights == d.flights && Backed(n.file)
  {
    var t := Touch(d.file.(attempts := [Assignment(0, Ai, PendingDispatch, 5, None, false)]), 0);
    assert t.memberships == d.file.memberships;
    assert CreateAttempt(d.file, 0, Ai, 5, "allocated").Some?;
    AllocatingBacked(d.file, 0, 5);
  }

  lemma CollisionStrands(d: Desk)
    requires DeskOk(d) && Waits(d)
    ensures var f := Play(d, Collision()).file; HasAllocated(f) && !HasEffective(f)
  {
    hide DeskOk, Step, Current, Backed;
    var d1 := Step(d, Collision()[0]);
    var d2 := Step(d1, Collision()[1]);
    var d3 := Step(d2, Collision()[2]);
    CollisionClaims(d);
    Placed(d2);
    StepStaysOk(d, Collision()[0]);
    StepStaysOk(d1, Collision()[1]);
    StepStaysOk(d2, Collision()[2]);
    WishIsCurrent(d3.file.items[1]);
    assert d3.file.memberships[0].status == MemberAllocated;
    assert Held(d3.file, d3.flights[0]);
    assert Strands(d3, Collision()[3]);
    BackingLostExactlyWhen(d3, Collision()[3]);
    PlayFour(d, Collision());
  }

  /** A new candidate is screened, pooled and allocated, and ends with an allocated membership and no
      effective attempt. */
  lemma AllocatedWithoutAttempt()
    ensures DeskOk(Newcomer()) && Backed(Newcomer().file)
    ensures var f := Play(Newcomer(), Screening() + Collision()).file; HasAllocated(f) && !HasEffective(f)
  {
    hide DeskOk, Step, Waits, Play;
    FreshDeskOk(Newcomer());
    var d1 := Step(Newcomer(), Screening()[0]);
    var d2 := Step(d1, Screening()[1]);
    ScreeningSubmits();
    ScreeningClaims(d1);
    ScreeningPools(d2);
    PlayThree(Newcomer(), Screening());
    PlayMoves(Newcomer(), Screening());
    CollisionStrands(Play(Newcomer(), Screening()));
    PlayOn(Newcomer(), Screening(), Collision());
  }

  lemma {:induction false} PlayOn(d: Desk, x: seq<Event>, y: seq<Event>)
    ensures Play(d, x + y) == Play(Play(d, x), y)
    decreases |x|
  {
    hide Step;
    if x == [] {
      assert x + y == y;
    } else {
      assert (x + y)[0] == x[0] && (x + y)[1..] == x[1..] + y;
      PlayHead(d, x + y);
      PlayHead(d, x);
      PlayOn(Step(d, x[0]), x[1..], y);
    }
  }

  lemma PlayThree(d: Desk, events: seq<Event>)
    requires |events| == 3
    ensures Play(d, events) == Step(Step(Step(d, events[0]), events[1]), events[2])
  {
    hide Step;
    var d1 := Step(d, events[0]);
    var d2 := Step(d1, events[1]);
    PlayHead(d, events);
    PlayHead(d1, events[1..]);
    PlayHead(d2, events[1..][1..]);
  }

  lemma PlayFour(d: Desk, events: seq<Event>)
    requires |events| == 4
    ensures Play(d, events) == Step(Step(Step(Step(d, events[0]), events[1]), events[2]), events[3])
  {
    hide Step;
    PlayHead(d, events);
    PlayThree(Step(d, events[0]), events[1..]);
  }
}
