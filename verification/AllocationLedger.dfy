/** Incremental equals recount: the quantities the loop carries are those the next snapshot reads
    back from the committed targets. */
module AllocationLedger {
  import opened Orders
  import opened AllocationTypes
  import opened AllocationPolicy
  import opened AllocationCanonical
  import opened AllocationBatching
  import opened AllocationStore
  import opened AllocationProtocol
  import opened AllocationCommit
  import opened AllocationInvariants
  import opened AllocationSafety

  // ----- what a run adds to the supply of a demand -----

  function CandidateOf(m: Member): nat { if m.candidateRef >= 0 then m.candidateRef else 0 }

  ghost predicate OwnCandidates(ms: seq<Member>) {
    forall i, j | 0 <= i < j < |ms| :: CandidateOf(ms[i]) != CandidateOf(ms[j])
  }

  predicate TakesNew(m: Member, d: Decision, c: nat) { d.action == Assign && d.demandId == c && c !in m.counted }

  /** The candidates a list of decisions adds to the supply of a demand. */
  ghost function NewTakers(ms: seq<Member>, ds: seq<Decision>, c: nat): set<nat>
    requires |ms| == |ds|
  {
    if ms == [] then {}
    else (if TakesNew(ms[0], ds[0], c) then {CandidateOf(ms[0])} else {}) + NewTakers(ms[1..], ds[1..], c)
  }

  ghost predicate TakesAt(ms: seq<Member>, ds: seq<Decision>, c: nat, i: int, x: nat) {
    0 <= i < |ms| && i < |ds| && TakesNew(ms[i], ds[i], c) && CandidateOf(ms[i]) == x
  }

  lemma {:induction false} TakerIndex(ms: seq<Member>, ds: seq<Decision>, c: nat, x: nat) returns (i: nat)
    requires |ms| == |ds| && x in NewTakers(ms, ds, c)
    ensures TakesAt(ms, ds, c, i, x)
  {
    if TakesNew(ms[0], ds[0], c) && CandidateOf(ms[0]) == x {
      i := 0;
    } else {
      i := TakerIndex(ms[1..], ds[1..], c, x);
      i := i + 1;
    }
  }

  lemma {:induction false} TakerListed(ms: seq<Member>, ds: seq<Decision>, c: nat, i: nat, x: nat)
    requires |ms| == |ds| && TakesAt(ms, ds, c, i, x)
    ensures x in NewTakers(ms, ds, c)
  {
    if i > 0 {
      TakerListed(ms[1..], ds[1..], c, i - 1, x);
    }
  }

  /** The loop's supply is the opening one plus the candidates newly allocated to the demand. */
  lemma {:induction false} RunSupply(ms: seq<Member>, demands: seq<Demand>, t: Tally, c: nat)
    requires OwnCandidates(ms)
    ensures var (ds, final) := Run(ms, demands, t);
            At(final.supply, c) == At(t.supply, c) + |NewTakers(ms, ds, c)|
  {
    hide Decide, OwnCandidates, CandidateOf;
    if ms != [] {
      var d := Decide(ms[0], demands, t);
      var t1 := Absorb(ms[0], d, t);
      OwnTail(ms);
      RunSupply(ms[1..], demands, t1, c);
      var rest := Run(ms[1..], demands, t1).0;
      assert ([d] + rest)[1..] == rest;
      if CandidateOf(ms[0]) in NewTakers(ms[1..], rest, c) {
        var i := TakerIndex(ms[1..], rest, c, CandidateOf(ms[0]));
        CandidatesDiffer(ms, i + 1);
        assert false;
      }
    }
  }

  lemma CandidatesDiffer(ms: seq<Member>, i: nat)
    requires OwnCandidates(ms) && 0 < i < |ms|
    ensures CandidateOf(ms[0]) != CandidateOf(ms[i])
  {}

  lemma OwnTail(ms: seq<Member>)
    requires ms != [] && OwnCandidates(ms)
    ensures OwnCandidates(ms[1..])
  {
    forall i, j | 0 <= i < j < |ms[1..]| ensures CandidateOf(ms[1..][i]) != CandidateOf(ms[1..][j]) {
      assert CandidateOf(ms[i + 1]) != CandidateOf(ms[j + 1]);
    }
  }

  // ----- the last sequence of a demand -----

  function LastTo(picks: seq<Decision>, c: nat, base: int): int {
    if picks == [] then base
    else if picks[|picks| - 1].demandId == c then picks[|picks| - 1].sequence
    else LastTo(picks[..|picks| - 1], c, base)
  }

  lemma {:induction false} LastToCons(d: Decision, rest: seq<Decision>, c: nat, base: int)
    ensures LastTo([d] + rest, c, base) == LastTo(rest, c, if d.demandId == c then d.sequence else base)
  {
    if rest == [] {
      assert [d] + rest == [d];
    } else {
      assert ([d] + rest)[..|rest|] == [d] + rest[..|rest| - 1];
      LastToCons(d, rest[..|rest| - 1], c, base);
    }
  }

  lemma {:induction false} RunLast(ms: seq<Member>, demands: seq<Demand>, t: Tally, c: nat)
    ensures var (ds, final) := Run(ms, demands, t);
            At(final.last, c) == LastTo(Picks(ds), c, At(t.last, c))
  {
    hide Decide;
    if ms != [] {
      var d := Decide(ms[0], demands, t);
      var t1 := Absorb(ms[0], d, t);
      var rest := Run(ms[1..], demands, t1).0;
      RunLast(ms[1..], demands, t1, c);
      DecideNumbers(ms[0], demands, t);
      PicksCons(d, rest);
      LastToCons(d, Picks(rest), c, At(t.last, c));
      assert [] + Picks(rest) == Picks(rest);
    }
  }

  lemma {:induction false} LastToBelow(picks: seq<Decision>, c: nat, base: int, first: int)
    requires Numbered(picks, first) && base < first
    ensures LastTo(picks, c, base) < first + |picks|
  {
    if picks != [] {
      assert picks[..|picks| - 1] + [picks[|picks| - 1]] == picks;
      LastToBelow(picks[..|picks| - 1], c, base, first);
    }
  }

  /** The records a commit appends, seen from a demand of the scope. */
  ghost predicate Appended(attempts: seq<Attempt>, picks: seq<Decision>, scope: nat) {
    && |attempts| == |picks|
    && forall i | 0 <= i < |picks| ::
         && attempts[i].target.Some? && attempts[i].target.value.scope == scope && Effective(attempts[i])
         && attempts[i].target.value.demand == picks[i].demandId && attempts[i].target.value.sequence == picks[i].sequence
  }

  lemma {:induction false} LastSequenceGrows(olds: seq<Attempt>, news: seq<Attempt>, picks: seq<Decision>, scope: nat, c: nat, first: int)
    requires Appended(news, picks, scope) && Numbered(picks, first) && LastSequence(olds, scope, c) < first
    ensures LastSequence(olds + news, scope, c) == LastTo(picks, c, LastSequence(olds, scope, c))
  {
    if picks == [] {
      assert olds + news == olds;
    } else {
      var n := |picks| - 1;
      assert (olds + news)[..|olds| + n] == olds + news[..n];
      LastSequenceGrows(olds, news[..n], picks[..n], scope, c, first);
      LastToBelow(picks[..n], c, LastSequence(olds, scope, c), first);
    }
  }

  lemma {:induction false} LastSequenceBelow(attempts: seq<Attempt>, scope: nat, c: nat, bound: nat)
    requires bound >= 1
    requires forall a | 0 <= a < |attempts| && attempts[a].target.Some? && attempts[a].target.value.scope == scope ::
               attempts[a].target.value.sequence < bound
    ensures LastSequence(attempts, scope, c) < bound
  {
    if attempts != [] {
      LastSequenceBelow(attempts[..|attempts| - 1], scope, c, bound);
    }
  }

  // ----- the committed state -----

  /** No record of the scope enters or leaves the seven-day window between the two readings, and
      the commit itself lies inside the second window. */
  ghost predicate WindowSteady(db: Db, scope: nat, at: nat, later: nat) {
    && db.now < later <= db.now + WINDOW
    && forall a | 0 <= a < |db.attempts| && db.attempts[a].target.Some? && db.attempts[a].target.value.scope == scope ::
         InWindow(db.attempts[a], at) == InWindow(db.attempts[a], later)
  }

  /** Candidates of the appended records for the demand. */
  ghost function Newly(db: Db, picks: seq<Decision>, c: nat): set<nat> {
    set i | 0 <= i < |picks| && picks[i].demandId == c && 0 <= picks[i].memberId < |db.members| :: db.members[picks[i].memberId].candidate
  }

  lemma SuppliersAppend(olds: seq<Attempt>, news: seq<Attempt>, scope: nat, c: nat, at: nat)
    ensures Suppliers(olds + news, scope, c, at) == Suppliers(olds, scope, c, at) + Suppliers(news, scope, c, at)
  {
    hide Supplies;
    var all := olds + news;
    forall x | x in Suppliers(news, scope, c, at) ensures x in Suppliers(all, scope, c, at) {
      var i :| 0 <= i < |news| && Supplies(news[i], scope, c, at) && news[i].candidate == x;
      assert all[|olds| + i] == news[i];
    }
    forall x | x in Suppliers(olds, scope, c, at) ensures x in Suppliers(all, scope, c, at) {
      var i :| 0 <= i < |olds| && Supplies(olds[i], scope, c, at) && olds[i].candidate == x;
      assert all[i] == olds[i];
    }
  }

  lemma SuppliersSteady(db: Db, scope: nat, c: nat, at: nat, later: nat)
    requires WindowSteady(db, scope, at, later)
    ensures Suppliers(db.attempts, scope, c, later) == Suppliers(db.attempts, scope, c, at)
  {
    hide InWindow, Effective;
    forall a | 0 <= a < |db.attempts|
      ensures Supplies(db.attempts[a], scope, c, later) == Supplies(db.attempts[a], scope, c, at) {}
  }

  lemma SuppliersNew(db: Db, scope: nat, picks: seq<Decision>, c: nat, later: nat)
    requires forall d | d in picks :: 0 <= d.memberId < |db.members| && d.sequence >= 0 && d.qualificationRef >= 0
    requires db.now < later <= db.now + WINDOW
    ensures Suppliers(NewAttempts(db, scope, picks), scope, c, later) == Newly(db, picks, c)
  {
    var news := NewAttempts(db, scope, picks);
    forall i | 0 <= i < |picks|
      ensures Supplies(news[i], scope, c, later) == (picks[i].demandId == c)
      ensures 0 <= picks[i].memberId < |db.members| && news[i].candidate == db.members[picks[i].memberId].candidate
    {
      assert picks[i] in picks;
    }
  }

  lemma SupplyAfter(db: Db, next: Db, scope: nat, picks: seq<Decision>, at: nat, later: nat, c: nat)
    requires forall d | d in picks :: 0 <= d.memberId < |db.members| && d.sequence >= 0 && d.qualificationRef >= 0
    requires next.attempts == db.attempts + NewAttempts(db, scope, picks) && WindowSteady(db, scope, at, later)
    ensures Supplied(next, scope, c, later) == Supplied(db, scope, c, at) + Newly(db, picks, c)
  {
    hide Suppliers, Newly;
    SuppliersAppend(db.attempts, NewAttempts(db, scope, picks), scope, c, later);
    SuppliersSteady(db, scope, c, at, later);
    SuppliersNew(db, scope, picks, c, later);
  }

  lemma UnionSize(a: set<nat>, b: set<nat>)
    ensures |a + b| == |a| + |b - a|
  {
    assert a + b == a + (b - a);
    assert a * (b - a) == {};
  }

  /** The line-up of a built snapshot, read back into the tables. */
  lemma LineupRows(db: Db, tk: Ticket, at: nat, revision: nat, i: nat)
    requires RowsOk(db) && Buildable(db, tk)
    requires i < |Lineup(Build(db, tk, at, revision))|
    ensures var m := Lineup(Build(db, tk, at, revision))[i];
            && 0 <= m.memberId < |db.members| && CandidateOf(m) == db.members[m.memberId].candidate
            && forall c: nat | c in Each2(db.demands[tk.scope]) ::
                 c in m.counted <==> CandidateOf(m) in Supplied(db, tk.scope, c, at)
  {
    hide SortBy, SnapshotMembers, Valid, Supplied, LastSequence, Latest, DistinctRows;
    var s := Build(db, tk, at, revision);
    SameElements(Lineup(s), s.members);
    var m := Lineup(s)[i];
    assert m in s.members;
    SnapshotMembersListed(db, tk.scope, at, tk.members, |db.members|);
    SnapshotMemberCandidate(db, tk.scope, at, m.memberId);
  }

  lemma SnapshotMemberCandidate(db: Db, sid: nat, at: nat, m: nat)
    requires m < |db.members| && Valid(db, m) && sid < |db.demands|
    ensures var x := SnapshotMember(db, sid, at, m);
            && x.candidateRef == db.members[m].candidate
            && forall c: nat | c in Each2(db.demands[sid]) ::
                 c in x.counted <==> db.members[m].candidate in Supplied(db, sid, c, at)
  {
    hide Assigned, OnCurrentResume, Supplied, Latest;
    var rows := db.demands[sid];
    var x := SnapshotMember(db, sid, at, m);
    forall c: nat | c in Each2(rows) ensures c in x.counted <==> db.members[m].candidate in Supplied(db, sid, c, at) {
      var i :| 0 <= i < |rows| && Each2(rows)[i] == c;
      assert rows[i] in rows && rows[i].demandId == c;
    }
  }

  lemma LineupOwnCandidates(db: Db, tk: Ticket, at: nat, revision: nat)
    requires RowsOk(db) && Buildable(db, tk)
    ensures OwnCandidates(Lineup(Build(db, tk, at, revision)))
  {
    hide RowsOk, Build, Lineup, CandidateOf, Valid, Plan, Supplied;
    var s := Build(db, tk, at, revision);
    SnapshotWellKeyed(db, tk, at, revision);
    LineupDistinct(s);
    SnapshotMembersApart(db, tk, at, revision);
    forall i, j | 0 <= i < j < |Lineup(s)| ensures CandidateOf(Lineup(s)[i]) != CandidateOf(Lineup(s)[j]) {
      LineupRows(db, tk, at, revision, i);
      LineupRows(db, tk, at, revision, j);
      assert Lineup(s)[i] in s.members && Lineup(s)[j] in s.members;
    }
  }

  /** The newly supplied candidates are those the loop counted. */
  lemma NewlyIsNewTakers(db: Db, tk: Ticket, at: nat, revision: nat, c: nat)
    requires RowsOk(db) && Buildable(db, tk) && c in Each2(db.demands[tk.scope])
    ensures var s := Build(db, tk, at, revision);
            && |Plan(s)| == |Lineup(s)|
            && Newly(db, Picks(Plan(s)), c) - Supplied(db, tk.scope, c, at) == NewTakers(Lineup(s), Plan(s), c)
  {
    hide RowsOk, Build, Lineup, CandidateOf, Picks, Plan, Numbered, Supplied, Each2, NewTakers, Buildable;
    var s := Build(db, tk, at, revision);
    var ms, ds, before := Lineup(s), Plan(s), Supplied(db, tk.scope, c, at);
    BuildSequence(db, tk, at, revision);
    PlanFollowsLineup(s);
    PicksAreAssigns(ds);
    forall x | x in Newly(db, Picks(ds), c) - before ensures x in NewTakers(ms, ds, c) {
      var k :| 0 <= k < |Picks(ds)| && Picks(ds)[k].demandId == c && 0 <= Picks(ds)[k].memberId < |db.members|
        && db.members[Picks(ds)[k].memberId].candidate == x;
      assert Picks(ds)[k] in Picks(ds);
      var i :| 0 <= i < |ds| && ds[i] == Picks(ds)[k];
      LineupRows(db, tk, at, revision, i);
      TakerListed(ms, ds, c, i, x);
    }
    forall x | x in NewTakers(ms, ds, c) ensures x in Newly(db, Picks(ds), c) - before {
      var i := TakerIndex(ms, ds, c, x);
      LineupRows(db, tk, at, revision, i);
      assert ds[i] in Picks(ds);
      var k :| 0 <= k < |Picks(ds)| && Picks(ds)[k] == ds[i];
    }
  }

  lemma BuildSequence(db: Db, tk: Ticket, at: nat, revision: nat)
    requires Buildable(db, tk)
    ensures Build(db, tk, at, revision).nextSequence == db.scopes[tk.scope].nextSequence >= 0
  {}

  /** What a successful execution leaves in the attempts table and the scope's sequence. */
  lemma CommittedRecords(db: Db, tk: Ticket, q: Request, ds: seq<Decision>, authorized: bool, next: Db)
    requires Good(db) && TicketOk(db, tk) && RequestOk(db, tk, q) && ds == Plan(q.snapshot) && tk.mode == Execute
    requires Commit(db, tk, q, ds, authorized) == (next, CommitDone)
    ensures Buildable(db, tk) && ds == Plan(Build(db, tk, q.snapshot.at, Revision(db, tk.scope)))
    ensures forall d | d in Picks(ds) :: 0 <= d.memberId < |db.members| && d.sequence >= 0 && d.qualificationRef >= 0
    ensures next.attempts == db.attempts + NewAttempts(db, tk.scope, Picks(ds)) && next.demands == db.demands
    ensures |next.scopes| == |db.scopes| && Numbered(Picks(ds), db.scopes[tk.scope].nextSequence)
    ensures next.scopes[tk.scope].nextSequence == db.scopes[tk.scope].nextSequence + |Picks(ds)|
  {
    hide RowsOk, TasksOk, ItemsOk, SequencesOk, Plan, Build, Canonical, WellKeyed, Executable, LeasedCovered, ApplyDecisions;
    hide Picks, Numbered, Revision, Buildable, MaxSequence, NewAttempts;
    CommitPlansCurrentState(db, tk, q, ds);
    PicksAreExecutable(db, ds);
    ApplyAttempts(db, tk, ds);
    PlanFollowsLineup(q.snapshot);
    var applied := ApplyDecisions(db, tk, ds).value;
    NextStartsAtOne(db, tk.scope);
    NextSequenceAdvances(applied, tk, ds);
    SettledRecords(applied, tk, ds);
  }

  lemma NextStartsAtOne(db: Db, sid: nat)
    requires SequencesOk(db) && sid < |db.scopes|
    ensures db.scopes[sid].nextSequence >= 1
  {}

  lemma SettledRecords(db: Db, tk: Ticket, ds: seq<Decision>)
    requires tk.scope < |db.scopes| && tk.task < |db.tasks| && (tk.task, tk.generation) in db.plans && tk.mode == Execute
    ensures var next := Settle(db, tk, MaxSequence(ds));
            next.attempts == db.attempts && |next.scopes| == |db.scopes|
            && next.scopes[tk.scope].nextSequence == Advanced(db, tk, ds).scopes[tk.scope].nextSequence
            && next.demands == db.demands
  {
    hide MaxSequence, ObserveItem, Revision, Update;
  }

  /** The last sequence a demand shows after the commit is the loop's. */
  lemma LastAfter(db: Db, scope: nat, picks: seq<Decision>, c: nat)
    requires SequencesOk(db) && scope < |db.scopes| && Numbered(picks, db.scopes[scope].nextSequence)
    requires forall d | d in picks :: 0 <= d.memberId < |db.members| && d.sequence >= 0 && d.qualificationRef >= 0
    ensures LastSequence(db.attempts + NewAttempts(db, scope, picks), scope, c)
            == LastTo(picks, c, LastSequence(db.attempts, scope, c))
  {
    hide Numbered;
    var news := NewAttempts(db, scope, picks);
    forall i | 0 <= i < |picks|
      ensures news[i].target.Some? && news[i].target.value.scope == scope && Effective(news[i])
      ensures news[i].target.value.demand == picks[i].demandId && news[i].target.value.sequence == picks[i].sequence
    {
      assert picks[i] in picks;
    }
    LastSequenceBelow(db.attempts, scope, c, db.scopes[scope].nextSequence);
    LastSequenceGrows(db.attempts, news, picks, scope, c, db.scopes[scope].nextSequence);
  }

  lemma OpeningReads(db: Db, tk: Ticket, at: nat, revision: nat, j: nat)
    requires RowsOk(db) && Buildable(db, tk) && j < |db.demands[tk.scope]|
    ensures var s, c := Build(db, tk, at, revision), db.demands[tk.scope][j].demandId;
            && At(Opening(s).supply, c) == |Supplied(db, tk.scope, c, at)|
            && At(Opening(s).last, c) == LastSequence(db.attempts, tk.scope, c)
            && s.demands[j] == SnapshotDemand(db, tk.scope, at)(db.demands[tk.scope][j])
            && c in Each2(db.demands[tk.scope])
  {
    hide Supplied, LastSequence, SnapshotMembers, SupplyOf, LastOf, Valid;
    var s := Build(db, tk, at, revision);
    SnapshotWellKeyed(db, tk, at, revision);
    OpeningEntries(s.demands);
    assert s.demands[j] in s.demands;
    assert Each2(db.demands[tk.scope])[j] == db.demands[tk.scope][j].demandId;
  }

  /** One demand after the commit: supply and last sequence read back are the loop's own. */
  lemma DemandReadBack(db: Db, tk: Ticket, at: nat, revision: nat, next: Db, later: nat, j: nat)
    requires Good(db) && Buildable(db, tk) && j < |db.demands[tk.scope]| && WindowSteady(db, tk.scope, at, later)
    requires forall d | d in Picks(Plan(Build(db, tk, at, revision))) ::
               0 <= d.memberId < |db.members| && d.sequence >= 0 && d.qualificationRef >= 0
    requires next.attempts == db.attempts + NewAttempts(db, tk.scope, Picks(Plan(Build(db, tk, at, revision))))
    ensures var s, row := Build(db, tk, at, revision), db.demands[tk.scope][j];
            SnapshotDemand(next, tk.scope, later)(row)
            == s.demands[j].(recentSupply := At(Outcome(s).1.supply, row.demandId), lastSequence := At(Outcome(s).1.last, row.demandId))
  {
    hide RowsOk, TasksOk, ItemsOk, SequencesOk, Build, Supplied, LastSequence, Picks, Numbered, Opening, Run, SortBy;
    hide WindowSteady, NewAttempts, Newly, NewTakers, Each2;
    var s, c := Build(db, tk, at, revision), db.demands[tk.scope][j].demandId;
    var ds := Plan(s);
    OpeningReads(db, tk, at, revision, j);
    BuildSequence(db, tk, at, revision);
    PlanFollowsLineup(s);
    LineupOwnCandidates(db, tk, at, revision);
    RunSupply(Lineup(s), s.demands, Opening(s), c);
    RunLast(Lineup(s), s.demands, Opening(s), c);
    SupplyAfter(db, next, tk.scope, Picks(ds), at, later, c);
    UnionSize(Supplied(db, tk.scope, c, at), Newly(db, Picks(ds), c));
    NewlyIsNewTakers(db, tk, at, revision, c);
    LastAfter(db, tk.scope, Picks(ds), c);
  }

  /** The main statement: a snapshot built after the commit reads exactly the quantities with which
      the loop ended, so the next batch goes on where this one stopped. */
  lemma RecountEqualsLoop(
    db: Db, tk: Ticket, q: Request, ds: seq<Decision>, authorized: bool, next: Db, tk2: Ticket, later: nat, revision: nat)
    requires Good(db) && TicketOk(db, tk) && RequestOk(db, tk, q) && ds == Plan(q.snapshot) && tk.mode == Execute
    requires Commit(db, tk, q, ds, authorized) == (next, CommitDone)
    requires WindowSteady(db, tk.scope, q.snapshot.at, later)
    requires tk2.scope == tk.scope && Buildable(next, tk2)
    ensures Buildable(db, tk)
    ensures var s, s2 := Build(db, tk, q.snapshot.at, Revision(db, tk.scope)), Build(next, tk2, later, revision);
            && s2.demands == Refreshed(s.demands, Outcome(s).1)
            && s2.nextSequence == Outcome(s).1.sequence
  {
    hide RowsOk, TasksOk, ItemsOk, SequencesOk, Plan, Canonical, WellKeyed, LeasedCovered, Supplied, LastSequence;
    hide Picks, Numbered, Revision, MaxSequence, NewAttempts, SnapshotMembers, WindowSteady, Commit, SnapshotDemand, Outcome;
    CommittedRecords(db, tk, q, ds, authorized, next);
    var s := Build(db, tk, q.snapshot.at, Revision(db, tk.scope));
    PlanFollowsLineup(s);
    var s2 := Build(next, tk2, later, revision);
    forall j | 0 <= j < |s.demands| ensures s2.demands[j] == Refreshed(s.demands, Outcome(s).1)[j] {
      DemandReadBack(db, tk, q.snapshot.at, Revision(db, tk.scope), next, later, j);
      DemandIdKept(db, tk.scope, q.snapshot.at, db.demands[tk.scope][j]);
    }
  }

  lemma DemandIdKept(db: Db, sid: nat, at: nat, row: DemandRow)
    ensures SnapshotDemand(db, sid, at)(row).demandId == row.demandId
  {}

  /** For a candidate that received nothing, the demands it already counts for are read back unchanged. */
  lemma {:induction false} CountedReadBack(
    db: Db, next: Db, scope: nat, picks: seq<Decision>, at: nat, later: nat, candidate: nat, rows: seq<DemandRow>)
    requires forall d | d in picks :: 0 <= d.memberId < |db.members| && d.sequence >= 0 && d.qualificationRef >= 0
    requires forall d | d in picks :: db.members[d.memberId].candidate != candidate
    requires next.attempts == db.attempts + NewAttempts(db, scope, picks) && WindowSteady(db, scope, at, later)
    ensures CountedFor(next, scope, candidate, later, rows) == CountedFor(db, scope, candidate, at, rows)
  {
    hide Supplied, WindowSteady, NewAttempts;
    if rows != [] {
      var n := |rows| - 1;
      CountedReadBack(db, next, scope, picks, at, later, candidate, rows[..n]);
      SupplyAfter(db, next, scope, picks, at, later, rows[n].demandId);
      assert candidate !in Newly(db, picks, rows[n].demandId);
    }
  }
}
