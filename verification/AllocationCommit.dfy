/** The plan of a snapshot built from the tables, and in closed form what the decision loop of a
    commit does to them. */
module AllocationCommit {
  import opened Orders
  import opened AllocationTypes
  import opened AllocationPolicy
  import opened AllocationCanonical
  import opened AllocationBatching
  import opened AllocationReference
  import opened AllocationStore
  import opened AllocationProtocol

  // ----- the snapshot -----

  lemma SnapshotTags(db: Db, sid: nat, at: nat, ids: seq<nat>, x: Member)
    requires RowsOk(db) && sid < |db.demands| && x in SnapshotMembers(db, sid, at, ids, |db.members|)
    ensures DistinctCodes(x.tags)
  {
    hide Assigned, Supplied, LastSequence, CountedFor, Latest, DistinctCodes;
    SnapshotMembersListed(db, sid, at, ids, |db.members|);
    LatestIsQualification(db.quals, x.memberId);
    var q := Latest(db.quals, x.memberId).value;
    assert x.tags == SnapshotMember(db, sid, at, x.memberId).tags == db.quals[q].tags;
  }

  lemma SnapshotWellKeyed(db: Db, tk: Ticket, at: nat, revision: nat)
    requires RowsOk(db) && Buildable(db, tk)
    ensures WellKeyed(Build(db, tk, at, revision))
  {
    hide Valid, Supplied, LastSequence, CountedFor, Latest, SnapshotMembers, DistinctCodes;
    var s := Build(db, tk, at, revision);
    SnapshotMembersListed(db, tk.scope, at, tk.members, |db.members|);
    forall x | x in s.members ensures DistinctCodes(x.tags) {
      SnapshotTags(db, tk.scope, at, tk.members, x);
    }
    var rows := db.demands[tk.scope];
    assert DistinctRows(rows);
    forall i, j | 0 <= i < j < |s.demands| ensures s.demands[i].demandId != s.demands[j].demandId {
      assert rows[i].demandId != rows[j].demandId;
    }
  }

  /** The members of a snapshot are exactly the valid members of the task. */
  lemma SnapshotIsValidMembers(db: Db, tk: Ticket, at: nat, revision: nat)
    requires Buildable(db, tk)
    ensures forall m: nat :: InSnapshot(m, Build(db, tk, at, revision)) <==> m < |db.members| && m in tk.members && Valid(db, m)
  {
    hide Valid, Supplied, LastSequence, CountedFor, Latest;
    var s := Build(db, tk, at, revision);
    SnapshotMembersListed(db, tk.scope, at, tk.members, |db.members|);
    forall m: nat ensures InSnapshot(m, s) <==> m < |db.members| && m in tk.members && Valid(db, m) {
      if m < |db.members| && m in tk.members && Valid(db, m) {
        var x := SnapshotMember(db, tk.scope, at, m);
        assert x in s.members;
        MemberIdKept(db, tk.scope, at, m);
      }
    }
  }

  // ----- the plan as a list of numbered picks -----

  lemma {:induction false} PicksSnoc(ds: seq<Decision>, d: Decision)
    ensures Picks(ds + [d]) == Picks(ds) + (if d.action == Assign then [d] else [])
  {
    if ds != [] {
      assert (ds + [d])[1..] == ds[1..] + [d];
      PicksSnoc(ds[1..], d);
    }
  }

  lemma {:induction false} PicksAreAssigns(ds: seq<Decision>)
    ensures forall d :: d in Picks(ds) <==> d in ds && d.action == Assign
  {
    if ds != [] {
      PicksAreAssigns(ds[1..]);
      assert ds == [ds[0]] + ds[1..];
    }
  }

  ghost predicate Numbered(picks: seq<Decision>, first: int) {
    forall i | 0 <= i < |picks| :: picks[i].sequence == first + i
  }

  /** The picks of a run carry consecutive sequence numbers, from the opening one to the final one. */
  lemma {:induction false} RunNumbersPicks(ms: seq<Member>, demands: seq<Demand>, t: Tally)
    ensures var (ds, final) := Run(ms, demands, t);
            Numbered(Picks(ds), t.sequence) && final.sequence == t.sequence + |Picks(ds)|
  {
    hide Decide, Absorb;
    if ms != [] {
      var d := Decide(ms[0], demands, t);
      var t1 := Absorb(ms[0], d, t);
      RunNumbersPicks(ms[1..], demands, t1);
      DecideShape(ms[0], demands, t);
      DecideNumbers(ms[0], demands, t);
      AbsorbCounts(ms[0], d, t);
      PicksCons(d, Run(ms[1..], demands, t1).0);
      NumberedCons(d, Picks(Run(ms[1..], demands, t1).0), t.sequence);
    }
  }

  lemma DecideNumbers(m: Member, demands: seq<Demand>, t: Tally)
    ensures var d := Decide(m, demands, t);
            d.sequence == if d.action == Assign then t.sequence else 0
  {
    hide InOrder, Feasible, IsChoice;
  }

  lemma NumberedCons(d: Decision, rest: seq<Decision>, first: int)
    ensures Numbered(rest, first) ==> Numbered([] + rest, first)
    ensures d.sequence == first && Numbered(rest, first + 1) ==> Numbered([d] + rest, first)
  {
    assert [] + rest == rest;
  }

  lemma AbsorbCounts(m: Member, d: Decision, t: Tally)
    ensures Absorb(m, d, t).sequence == t.sequence + if d.action == Assign then 1 else 0
  {}

  lemma {:induction false} TopOfPicks(ds: seq<Decision>, first: int)
    requires first >= 1 && Numbered(Picks(ds), first)
    ensures MaxSequence(ds) == if Picks(ds) == [] then 0 else first + |Picks(ds)| - 1
  {
    if ds != [] {
      var n := |ds| - 1;
      assert ds == ds[..n] + [ds[n]];
      PicksSnoc(ds[..n], ds[n]);
      assert forall i | 0 <= i < |Picks(ds[..n])| :: Picks(ds)[i] == Picks(ds[..n])[i];
      TopOfPicks(ds[..n], first);
      if ds[n].action == Assign {
        assert Picks(ds)[|Picks(ds[..n])|] == ds[n];
      }
    }
  }

  // ----- which decision lists a commit can meet -----

  /** Every decision is about an existing member, each member is decided once, and assigned members
      hold active memberships of different candidates. */
  ghost predicate Executable(db: Db, ds: seq<Decision>) {
    && (forall d | d in ds :: 0 <= d.memberId < |db.members| && d.sequence >= 0 && d.qualificationRef >= 0)
    && (forall i | 0 <= i < |ds| && ds[i].action == Assign :: ActiveMembership(db.members[ds[i].memberId]))
    && (forall i, j | 0 <= i < j < |ds| :: db.members[ds[i].memberId].candidate != db.members[ds[j].memberId].candidate)
  }

  lemma ExecutablePrefix(db: Db, ds: seq<Decision>)
    requires ds != [] && Executable(db, ds)
    ensures Executable(db, ds[..|ds| - 1])
  {
    assert forall d | d in ds[..|ds| - 1] :: d in ds;
  }

  /** The planned members, in the order they are planned. */
  ghost function Lineup(s: Snapshot): seq<Member> { SortBy(Earlier, s.members) }

  lemma LineupDistinct(s: Snapshot)
    requires DistinctMembers(s.members)
    ensures DistinctMembers(Lineup(s)) && forall x :: x in Lineup(s) <==> x in s.members
  {
    hide SortBy;
    var ms, xs := Lineup(s), s.members;
    SameElements(ms, xs);
    forall i, j | 0 <= i < j < |ms| ensures ms[i].memberId != ms[j].memberId {
      assert ms[i] in xs && ms[j] in xs;
      var k :| 0 <= k < |xs| && xs[k] == ms[i];
      var l :| 0 <= l < |xs| && xs[l] == ms[j];
      TwicePresent(ms, i, j);
      OncePresent(xs, k);
    }
  }

  lemma {:induction false} RunSequencesNatural(ms: seq<Member>, demands: seq<Demand>, t: Tally)
    requires t.sequence >= 0
    ensures forall d | d in Run(ms, demands, t).0 :: d.sequence >= 0
  {
    hide Decide, Absorb;
    if ms != [] {
      var d := Decide(ms[0], demands, t);
      DecideNumbers(ms[0], demands, t);
      AbsorbCounts(ms[0], d, t);
      RunSequencesNatural(ms[1..], demands, Absorb(ms[0], d, t));
    }
  }

  /** Decision by decision, the plan is about the line-up. */
  lemma PlanFollowsLineup(s: Snapshot)
    requires s.nextSequence >= 0
    ensures |Plan(s)| == |Lineup(s)|
    ensures forall i | 0 <= i < |Plan(s)| ::
              Plan(s)[i].memberId == Lineup(s)[i].memberId && Plan(s)[i].qualificationRef == Lineup(s)[i].qualificationRef
    ensures forall d | d in Plan(s) :: d.sequence >= 0
    ensures Numbered(Picks(Plan(s)), s.nextSequence) && Outcome(s).1.sequence == s.nextSequence + |Picks(Plan(s))|
  {
    hide SortBy, Run, Picks, Numbered;
    RunKeepsMembers(Lineup(s), s.demands, Opening(s));
    RunSequencesNatural(Lineup(s), s.demands, Opening(s));
    RunNumbersPicks(Lineup(s), s.demands, Opening(s));
  }

  lemma PlanDecidesSnapshot(s: Snapshot, m: nat)
    requires s.nextSequence >= 0
    ensures InSnapshot(m, s) <==> exists d :: d in Plan(s) && d.memberId == m
  {
    hide SortBy, Plan, Picks, Numbered;
    PlanFollowsLineup(s);
    SameElements(Lineup(s), s.members);
    if x :| x in s.members && x.memberId == m {
      assert x in Lineup(s);
      var i :| 0 <= i < |Lineup(s)| && Lineup(s)[i] == x;
      assert Plan(s)[i] in Plan(s) && Plan(s)[i].memberId == m;
    }
    if d :| d in Plan(s) && d.memberId == m {
      var i :| 0 <= i < |Plan(s)| && Plan(s)[i] == d;
      assert Lineup(s)[i] in s.members;
    }
  }

  /** Every member of a snapshot holds a pending membership, of a candidate of its own. */
  lemma SnapshotMembersApart(db: Db, tk: Ticket, at: nat, revision: nat)
    requires RowsOk(db) && Buildable(db, tk)
    ensures var s := Build(db, tk, at, revision);
            && (forall x | x in s.members :: 0 <= x.memberId < |db.members| && x.qualificationRef >= 0
                  && x.memberId in tk.members && Valid(db, x.memberId) && db.members[x.memberId].status == PendingAllocation)
            && (forall x, y | x in s.members && y in s.members && x.memberId != y.memberId ::
                  db.members[x.memberId].candidate != db.members[y.memberId].candidate)
  {
    hide Assigned, OnCurrentResume, Supplied, LastSequence, CountedFor, Latest, DistinctCodes;
    var s := Build(db, tk, at, revision);
    SnapshotMembersListed(db, tk.scope, at, tk.members, |db.members|);
    forall x | x in s.members
      ensures 0 <= x.memberId < |db.members| && x.qualificationRef >= 0
      ensures x.memberId in tk.members && Valid(db, x.memberId) && db.members[x.memberId].status == PendingAllocation
    {
      assert x == SnapshotMember(db, tk.scope, at, x.memberId);
    }
  }

  /** The plan of the current tables can be carried out on them. */
  lemma PlanExecutable(db: Db, tk: Ticket, at: nat, revision: nat)
    requires RowsOk(db) && Buildable(db, tk)
    ensures Executable(db, Plan(Build(db, tk, at, revision)))
  {
    hide SortBy, Plan, Picks, Numbered, Valid, SnapshotMembers, Lineup, DistinctRows;
    var s := Build(db, tk, at, revision);
    var plan, ms := Plan(s), Lineup(s);
    SnapshotWellKeyed(db, tk, at, revision);
    LineupDistinct(s);
    PlanFollowsLineup(s);
    SnapshotMembersApart(db, tk, at, revision);
    forall d | d in plan ensures 0 <= d.memberId < |db.members| && d.sequence >= 0 && d.qualificationRef >= 0 {
      var i :| 0 <= i < |plan| && plan[i] == d;
      assert ms[i] in s.members;
    }
    forall i | 0 <= i < |plan| ensures ActiveMembership(db.members[plan[i].memberId]) {
      assert ms[i] in s.members;
    }
    forall i, j | 0 <= i < j < |plan|
      ensures db.members[plan[i].memberId].candidate != db.members[plan[j].memberId].candidate
    {
      assert ms[i] in s.members && ms[j] in s.members && ms[i].memberId != ms[j].memberId;
    }
  }

  function NewAttempts(db: Db, scope: nat, picks: seq<Decision>): (r: seq<Attempt>)
    requires forall d | d in picks :: 0 <= d.memberId < |db.members| && d.sequence >= 0 && d.qualificationRef >= 0
    ensures |r| == |picks|
    ensures forall i | 0 <= i < |picks| :: r[i] == NewAttempt(db.members[picks[i].memberId], db.now, scope, picks[i])
  {
    seq(|picks|, i requires 0 <= i < |picks| =>
      assert picks[i] in picks; NewAttempt(db.members[picks[i].memberId], db.now, scope, picks[i]))
  }

  // ----- members -----

  ghost predicate TouchedBy(db: Db, ds: seq<Decision>, n: nat)
    requires n < |db.members|
  {
    exists i :: 0 <= i < |ds| && ds[i].action == Assign && 0 <= ds[i].memberId < |db.members|
      && db.members[ds[i].memberId].candidate == db.members[n].candidate
  }

  /** Rows of other candidates are untouched, and no closed membership becomes active. */
  ghost predicate MembersApplied(db: Db, ds: seq<Decision>, next: Db) {
    && MembersKept(db.members, next.members) && |next.members| == |db.members|
    && (forall n | 0 <= n < |db.members| :: ActiveMembership(next.members[n]) ==> ActiveMembership(db.members[n]))
    && (forall n | 0 <= n < |db.members| && !TouchedBy(db, ds, n) :: next.members[n] == db.members[n])
  }

  lemma AssignAppliesMembers(db: Db, mid: Db, ds: seq<Decision>, d: Decision, tk: Ticket)
    requires Executable(db, ds + [d]) && d.action == Assign && MembersApplied(db, ds, mid)
    ensures MembersApplied(db, ds + [d], AssignMember(mid, tk, d))
  {
    hide Executable, TouchedBy, Update, SettleItem, TouchedScopes;
    LastIsUntouched(db, ds, d);
    var next := AssignMember(mid, tk, d);
    forall n | 0 <= n < |db.members| && !TouchedBy(db, ds + [d], n) ensures next.members[n] == db.members[n] {
      TouchWidens(db, ds, d, n);
    }
  }

  lemma LastIsUntouched(db: Db, ds: seq<Decision>, d: Decision)
    requires Executable(db, ds + [d])
    ensures 0 <= d.memberId < |db.members| && d.sequence >= 0 && d.qualificationRef >= 0
    ensures !TouchedBy(db, ds, d.memberId)
    ensures d.action == Assign ==> ActiveMembership(db.members[d.memberId])
  {
    var all := ds + [d];
    assert all[|ds|] == d && d in all;
    assert forall i | 0 <= i < |ds| :: all[i] == ds[i];
  }

  lemma TouchWidens(db: Db, ds: seq<Decision>, d: Decision, n: nat)
    requires n < |db.members|
    ensures TouchedBy(db, ds, n) ==> TouchedBy(db, ds + [d], n)
    ensures d.action == Assign && 0 <= d.memberId < |db.members| && db.members[d.memberId].candidate == db.members[n].candidate
            ==> TouchedBy(db, ds + [d], n)
  {
    var all := ds + [d];
    assert all[|ds|] == d;
    assert forall i | 0 <= i < |ds| :: all[i] == ds[i];
  }

  lemma {:induction false} ApplyMembers(db: Db, tk: Ticket, ds: seq<Decision>)
    requires Executable(db, ds) && ApplyDecisions(db, tk, ds).Some?
    ensures var next := ApplyDecisions(db, tk, ds).value;
            MembersApplied(db, ds, next) && |next.workflows| == |db.workflows|
  {
    hide Executable, AssignMember, MembersApplied, TouchedBy, Update, WaitItem;
    if ds == [] {
      NothingApplied(db);
    } else {
      var n := |ds| - 1;
      var rest, d := ds[..n], ds[n];
      assert ds == rest + [d];
      ExecutablePrefix(db, ds);
      ApplyMembers(db, tk, rest);
      var mid := ApplyDecisions(db, tk, rest).value;
      if tk.mode == Simulate {
        WiderTouch(db, rest, d, mid);
      } else if d.action == Wait {
        MembersOnly(db, rest, mid, mid.(items := Update(mid.items, WaitItem(d.memberId, tk.task))));
        WiderTouch(db, rest, d, mid.(items := Update(mid.items, WaitItem(d.memberId, tk.task))));
      } else {
        AssignAppliesMembers(db, mid, rest, d, tk);
        AssignKeepsWorkflows(mid, tk, d);
      }
    }
  }

  lemma NothingApplied(db: Db)
    ensures MembersApplied(db, [], db)
  {}

  lemma MembersOnly(db: Db, ds: seq<Decision>, mid: Db, next: Db)
    requires MembersApplied(db, ds, mid) && next.members == mid.members
    ensures MembersApplied(db, ds, next)
  {}

  lemma WiderTouch(db: Db, ds: seq<Decision>, d: Decision, next: Db)
    requires MembersApplied(db, ds, next)
    ensures MembersApplied(db, ds + [d], next)
  {
    hide TouchedBy;
    forall n | 0 <= n < |db.members| && !TouchedBy(db, ds + [d], n) ensures next.members[n] == db.members[n] {
      TouchWidens(db, ds, d, n);
    }
  }

  lemma AssignKeepsWorkflows(db: Db, tk: Ticket, d: Decision)
    requires 0 <= d.memberId < |db.members| && d.sequence >= 0 && d.qualificationRef >= 0
    ensures |AssignMember(db, tk, d).workflows| == |db.workflows|
  {}

  // ----- attempts -----

  /** One new attempt per pick, in order, for the member's candidate and with the pick's sequence. */
  lemma {:induction false} ApplyAttempts(db: Db, tk: Ticket, ds: seq<Decision>)
    requires tk.mode == Execute && Executable(db, ds) && ApplyDecisions(db, tk, ds).Some?
    requires forall d | d in Picks(ds) :: 0 <= d.memberId < |db.members| && d.sequence >= 0 && d.qualificationRef >= 0
    ensures ApplyDecisions(db, tk, ds).value.attempts == db.attempts + NewAttempts(db, tk.scope, Picks(ds))
  {
    hide Executable, MembersApplied, TouchedBy, Update, WaitItem, NewAttempts, Picks, AssignMember, NewAttempt;
    if ds == [] {
      NoNewAttempts(db, tk.scope, ds);
    } else {
      var n := |ds| - 1;
      var rest, d := ds[..n], ds[n];
      assert ds == rest + [d];
      ExecutablePrefix(db, ds);
      PicksSnoc(rest, d);
      ApplyAttempts(db, tk, rest);
      ApplyMembers(db, tk, rest);
      var mid := ApplyDecisions(db, tk, rest).value;
      if d.action == Assign {
        assert d in ds;
        InRange(db, ds, d);
        RowKept(db, rest, mid, d.memberId);
        assert Picks(ds) == Picks(rest) + [d];
        AttemptsSnoc(db, tk.scope, Picks(rest), d);
        AttemptAppended(db, mid, tk, d);
      } else {
        assert Picks(ds) == Picks(rest);
      }
    }
  }

  lemma NoNewAttempts(db: Db, scope: nat, ds: seq<Decision>)
    requires ds == []
    ensures Picks(ds) == [] && NewAttempts(db, scope, Picks(ds)) == []
  {}

  lemma InRange(db: Db, ds: seq<Decision>, d: Decision)
    requires Executable(db, ds) && d in ds
    ensures 0 <= d.memberId < |db.members| && d.sequence >= 0 && d.qualificationRef >= 0
  {}

  lemma AttemptsSnoc(db: Db, scope: nat, picks: seq<Decision>, d: Decision)
    requires forall e | e in picks + [d] :: 0 <= e.memberId < |db.members| && e.sequence >= 0 && e.qualificationRef >= 0
    ensures 0 <= d.memberId < |db.members| && d.sequence >= 0 && d.qualificationRef >= 0
    ensures (forall e | e in picks :: 0 <= e.memberId < |db.members| && e.sequence >= 0 && e.qualificationRef >= 0)
    ensures NewAttempts(db, scope, picks + [d]) == NewAttempts(db, scope, picks) + [NewAttempt(db.members[d.memberId], db.now, scope, d)]
  {
    hide NewAttempt;
    assert (picks + [d])[|picks|] == d && d in picks + [d];
    assert forall e | e in picks :: e in picks + [d];
  }

  lemma AttemptAppended(db: Db, mid: Db, tk: Ticket, d: Decision)
    requires 0 <= d.memberId < |db.members| == |mid.members| && d.sequence >= 0 && d.qualificationRef >= 0 && mid.now == db.now
    requires mid.members[d.memberId].candidate == db.members[d.memberId].candidate
    requires mid.members[d.memberId].resume == db.members[d.memberId].resume
    ensures AssignMember(mid, tk, d).attempts == mid.attempts + [NewAttempt(db.members[d.memberId], db.now, tk.scope, d)]
  {
    hide Update, TouchedScopes;
  }

  lemma RowKept(db: Db, ds: seq<Decision>, next: Db, m: int)
    requires MembersApplied(db, ds, next) && 0 <= m < |db.members|
    ensures next.members[m].candidate == db.members[m].candidate && next.members[m].resume == db.members[m].resume
  {}

  // ----- items -----

  /** Items are kept or settled, and what was leased for a decided member is settled. */
  ghost predicate ItemsSettled(a: seq<Item>, b: seq<Item>) {
    && |a| == |b|
    && forall i | 0 <= i < |a| ::
         b[i] == a[i] || (Unsettled(a[i]) && b[i] == a[i].(status := b[i].status) && b[i].status in {ItemWaiting, ItemAssigned})
  }

  ghost predicate StillLeased(i: Item, task: nat) { i.status == ItemLeased && i.task == Some(task) }

  lemma {:induction false} ApplyItems(db: Db, tk: Ticket, ds: seq<Decision>)
    requires tk.mode == Execute && ApplyDecisions(db, tk, ds).Some?
    ensures var next := ApplyDecisions(db, tk, ds).value;
            && ItemsSettled(db.items, next.items)
            && forall i, d | 0 <= i < |next.items| && StillLeased(next.items[i], tk.task) && d in ds :: next.items[i].member != d.memberId
  {
    if ds != [] {
      var n := |ds| - 1;
      ApplyItems(db, tk, ds[..n]);
      var mid, next := ApplyDecisions(db, tk, ds[..n]).value, ApplyDecisions(db, tk, ds).value;
      assert ds == ds[..n] + [ds[n]];
      LastSettles(mid, next, tk, ds[n]);
      SettledTwice(db.items, mid.items, next.items);
    }
  }

  lemma LastSettles(mid: Db, next: Db, tk: Ticket, d: Decision)
    requires |mid.items| == |next.items|
    requires d.action == Wait ==> next.items == Update(mid.items, WaitItem(d.memberId, tk.task))
    requires d.action == Assign ==> next.items == Update(mid.items, SettleItem(d.memberId))
    ensures ItemsSettled(mid.items, next.items)
    ensures forall i | 0 <= i < |next.items| && StillLeased(next.items[i], tk.task) ::
              next.items[i].member != d.memberId && next.items[i] == mid.items[i]
  {}

  lemma SettledTwice(a: seq<Item>, b: seq<Item>, c: seq<Item>)
    requires ItemsSettled(a, b) && ItemsSettled(b, c)
    ensures ItemsSettled(a, c)
  {}
}
