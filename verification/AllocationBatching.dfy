/** Draining the queue in batches, with waiting members woken in between, assigns exactly what one
    unbounded run would assign. */
module AllocationBatching {
  import opened Orders
  import opened AllocationTypes
  import opened AllocationPolicy
  import opened AllocationCanonical


  function Picks(ds: seq<Decision>): seq<Decision> {
    if ds == [] then []
    else (if ds[0].action == Assign then [ds[0]] else []) + Picks(ds[1..])
  }

  /** Members some demand can take; this never depends on the tally. */
  ghost function Assignable(ms: seq<Member>, demands: seq<Demand>): (r: seq<Member>)
    ensures forall m | m in r :: m in ms && AnyFeasible(m, demands)
  {
    if ms == [] then []
    else (if AnyFeasible(ms[0], demands) then [ms[0]] else []) + Assignable(ms[1..], demands)
  }

  // ----- composition of runs -----

  /** A run over A ++ B is a run over A followed by a run over B on the updated quantities. */
  lemma {:induction false} RunAppend(a: seq<Member>, b: seq<Member>, demands: seq<Demand>, t: Tally)
    ensures var first := Run(a, demands, t);
            var second := Run(b, demands, first.1);
            Run(a + b, demands, t) == (first.0 + second.0, second.1)
  {
    hide Decide, Absorb;
    if a == [] {
      assert a + b == b;
      var second := Run(b, demands, t);
      assert [] + second.0 == second.0 && Run(a, demands, t) == ([], t);
    } else {
      var d := Decide(a[0], demands, t);
      var t1 := Absorb(a[0], d, t);
      assert (a + b)[0] == a[0] && (a + b)[1..] == a[1..] + b;
      RunAppend(a[1..], b, demands, t1);
      var first := Run(a[1..], demands, t1);
      var second := Run(b, demands, first.1);
      assert [d] + (first.0 + second.0) == ([d] + first.0) + second.0;
    }
  }

  /** Members that wait leave no trace: a run's picks are the run over the assignable members. */
  lemma {:induction false} WaitersLeaveNoTrace(ms: seq<Member>, demands: seq<Demand>, t: Tally)
    ensures Picks(Run(ms, demands, t).0) == Run(Assignable(ms, demands), demands, t).0
    ensures Run(ms, demands, t).1 == Run(Assignable(ms, demands), demands, t).1
  {
    hide AnyFeasible;
    if ms != [] {
      var d := Decide(ms[0], demands, t);
      DecideShape(ms[0], demands, t);
      var t1 := Absorb(ms[0], d, t);
      WaitersLeaveNoTrace(ms[1..], demands, t1);
      var rest := Run(ms[1..], demands, t1).0;
      assert Run(ms, demands, t).0 == [d] + rest && ([d] + rest)[1..] == rest;
      PicksCons(d, rest);
      var tail := Assignable(ms[1..], demands);
      if AnyFeasible(ms[0], demands) {
        assert Assignable(ms, demands) == [ms[0]] + tail && ([ms[0]] + tail)[1..] == tail;
        RunCons(ms[0], tail, demands, t);
      } else {
        assert Assignable(ms, demands) == tail;
      }
    }
  }

  lemma DecideShape(m: Member, demands: seq<Demand>, t: Tally)
    ensures var d := Decide(m, demands, t);
            && (AnyFeasible(m, demands) <==> d.action == Assign)
            && (!AnyFeasible(m, demands) ==> Absorb(m, d, t) == t)
  {}

  lemma PicksCons(d: Decision, rest: seq<Decision>)
    ensures Picks([d] + rest) == (if d.action == Assign then [d] else []) + Picks(rest)
  {
    assert ([d] + rest)[1..] == rest;
  }

  lemma RunCons(m: Member, rest: seq<Member>, demands: seq<Demand>, t: Tally)
    ensures var d := Decide(m, demands, t);
            var tail := Run(rest, demands, Absorb(m, d, t));
            Run([m] + rest, demands, t) == ([d] + tail.0, tail.1)
  {
    hide Decide, Absorb;
    assert ([m] + rest)[1..] == rest;
  }

  lemma {:induction false} AssignableAppend(a: seq<Member>, b: seq<Member>, demands: seq<Demand>)
    ensures Assignable(a + b, demands) == Assignable(a, demands) + Assignable(b, demands)
  {
    hide AnyFeasible;
    if a == [] {
      assert a + b == b;
    } else {
      assert (a + b)[1..] == a[1..] + b;
      AssignableAppend(a[1..], b, demands);
    }
  }

  // ----- the next snapshot sees the updated quantities -----

  /** The demands as the next snapshot reads them back. */
  function Refreshed(demands: seq<Demand>, t: Tally): (r: seq<Demand>)
    ensures |r| == |demands|
    ensures forall i | 0 <= i < |demands| :: r[i] == demands[i].(
              recentSupply := At(t.supply, demands[i].demandId), lastSequence := At(t.last, demands[i].demandId))
  {
    seq(|demands|, i requires 0 <= i < |demands| => demands[i].(
      recentSupply := At(t.supply, demands[i].demandId), lastSequence := At(t.last, demands[i].demandId)))
  }

  ghost predicate Covers(t: Tally, demands: seq<Demand>) {
    && t.supply.Keys == t.last.Keys
    && forall k :: k in t.supply <==> exists d :: d in demands && d.demandId == k
  }

  lemma SupplyIsNoEligibility(m: Member, d: Demand, supply: int, last: int, t: Tally)
    ensures var e := d.(recentSupply := supply, lastSequence := last);
            && Open(m, e) == Open(m, d) && Feasible(m, e) == Feasible(m, d)
            && Rank(m, e, t) == Rank(m, d, t) && Assignment(m, e, t) == Assignment(m, d, t)
  {
    hide InOrder, Hits, TagTable;
    var e := d.(recentSupply := supply, lastSequence := last);
    assert Matched(TagTable(m.tags), e) == Matched(TagTable(m.tags), d);
  }

  lemma DecideRefreshed(m: Member, demands: seq<Demand>, now: Tally, t: Tally)
    ensures Decide(m, Refreshed(demands, now), t) == Decide(m, demands, t)
    ensures AnyFeasible(m, Refreshed(demands, now)) == AnyFeasible(m, demands)
  {
    hide InOrder, LexLe, Feasible, Rank, Assignment, Open, WaitReason;
    var renewed := Refreshed(demands, now);
    forall i | 0 <= i < |demands|
      ensures Open(m, renewed[i]) == Open(m, demands[i]) && Feasible(m, renewed[i]) == Feasible(m, demands[i])
      ensures Rank(m, renewed[i], t) == Rank(m, demands[i], t)
      ensures Assignment(m, renewed[i], t) == Assignment(m, demands[i], t)
    {
      SupplyIsNoEligibility(m, demands[i], At(now.supply, demands[i].demandId), At(now.last, demands[i].demandId), t);
    }
    assert Feasibles(m, renewed) == Feasibles(m, demands);
    assert Ranks(m, renewed, t) == Ranks(m, demands, t);
    SomeFeasible(m, renewed);
    SomeFeasible(m, demands);
    ChoiceExists(m, renewed, t);
    ChoiceExists(m, demands, t);
    if AnyFeasible(m, demands) {
      var i :| IsChoice(m, demands, t, i) && Decide(m, demands, t) == Assignment(m, demands[i], t);
      var j :| IsChoice(m, renewed, t, j) && Decide(m, renewed, t) == Assignment(m, renewed[j], t);
      LeastUnique(Feasibles(m, demands), Ranks(m, demands, t), i, j);
    }
    OpenRefreshed(m, demands, now);
  }

  lemma OpenRefreshed(m: Member, demands: seq<Demand>, now: Tally)
    ensures WaitReason(m, Refreshed(demands, now)) == WaitReason(m, demands)
  {
    var renewed := Refreshed(demands, now);
    if d :| d in demands && Open(m, d) {
      var i :| 0 <= i < |demands| && demands[i] == d;
      assert renewed[i] in renewed && Open(m, renewed[i]);
    }
    if d :| d in renewed && Open(m, d) {
      var i :| 0 <= i < |renewed| && renewed[i] == d;
      assert demands[i] in demands && Open(m, demands[i]);
    }
  }

  lemma {:induction false} RunRefreshed(ms: seq<Member>, demands: seq<Demand>, now: Tally, t: Tally)
    ensures Run(ms, Refreshed(demands, now), t) == Run(ms, demands, t)
  {
    hide Decide, Absorb;
    if ms != [] {
      DecideRefreshed(ms[0], demands, now, t);
      RunRefreshed(ms[1..], demands, now, Absorb(ms[0], Decide(ms[0], demands, t), t));
    }
  }

  /** Refreshing changes quantities, not which demands there are. */
  lemma RefreshedIds(demands: seq<Demand>, t: Tally, k: int)
    ensures (exists d :: d in Refreshed(demands, t) && d.demandId == k) <==> (exists d :: d in demands && d.demandId == k)
  {
    hide Refreshed;
    var renewed := Refreshed(demands, t);
    if d :| d in demands && d.demandId == k {
      var i :| 0 <= i < |demands| && demands[i] == d;
      assert renewed[i] in renewed;
    }
    if d :| d in renewed && d.demandId == k {
      var i :| 0 <= i < |renewed| && renewed[i] == d;
      assert demands[i] in demands;
    }
  }

  lemma RefreshedDistinct(demands: seq<Demand>, t: Tally)
    requires DistinctDemands(demands)
    ensures DistinctDemands(Refreshed(demands, t))
  {
    hide Refreshed;
  }

  lemma RefreshedEntry(demands: seq<Demand>, t: Tally, k: int) returns (e: Demand)
    requires exists d :: d in demands && d.demandId == k
    ensures e in Refreshed(demands, t) && e.demandId == k && e.recentSupply == At(t.supply, k) && e.lastSequence == At(t.last, k)
  {
    hide Refreshed, At;
    var d :| d in demands && d.demandId == k;
    var i :| 0 <= i < |demands| && demands[i] == d;
    e := Refreshed(demands, t)[i];
  }

  lemma OpeningRefreshed(demands: seq<Demand>, t: Tally)
    requires DistinctDemands(demands) && Covers(t, demands)
    ensures SupplyOf(Refreshed(demands, t)) == t.supply && LastOf(Refreshed(demands, t)) == t.last
  {
    hide SupplyOf, LastOf, Refreshed, DistinctDemands;
    var renewed := Refreshed(demands, t);
    RefreshedDistinct(demands, t);
    OpeningEntries(renewed);
    forall k ensures k in SupplyOf(renewed) <==> k in t.supply {
      RefreshedIds(demands, t, k);
    }
    forall k | k in t.supply ensures SupplyOf(renewed)[k] == t.supply[k] && LastOf(renewed)[k] == t.last[k] {
      var e := RefreshedEntry(demands, t, k);
    }
  }

  lemma DecideTargets(m: Member, demands: seq<Demand>, t: Tally)
    ensures var d := Decide(m, demands, t);
            d.action == Assign ==>
              exists e :: (e in demands && Feasible(m, e) && d == Assignment(m, e, t))
  {
    hide InOrder, Feasible;
    ChoiceExists(m, demands, t);
    if AnyFeasible(m, demands) {
      var i :| IsChoice(m, demands, t, i) && Decide(m, demands, t) == Assignment(m, demands[i], t);
      assert demands[i] in demands && Feasible(m, demands[i]);
    }
  }

  lemma AbsorbCovers(m: Member, demands: seq<Demand>, t: Tally)
    requires Covers(t, demands)
    ensures Covers(Absorb(m, Decide(m, demands, t), t), demands)
  {
    hide Decide, Assignment, Feasible;
    DecideTargets(m, demands, t);
    var d := Decide(m, demands, t);
    if d.action == Assign {
      var e :| e in demands && Feasible(m, e) && d == Assignment(m, e, t);
      AssignmentIsFor(m, e, t);
      SameKeys(t, Absorb(m, d, t), demands);
    }
  }

  lemma AssignmentIsFor(m: Member, d: Demand, t: Tally)
    ensures Assignment(m, d, t).demandId == d.demandId && Assignment(m, d, t).action == Assign
  {}

  lemma SameKeys(t: Tally, next: Tally, demands: seq<Demand>)
    requires Covers(t, demands) && next.supply.Keys == t.supply.Keys && next.last.Keys == t.last.Keys
    ensures Covers(next, demands)
  {
    assert forall k :: k in next.supply <==> k in t.supply;
  }

  lemma {:induction false} RunCovers(ms: seq<Member>, demands: seq<Demand>, t: Tally)
    requires Covers(t, demands)
    ensures Covers(Run(ms, demands, t).1, demands)
  {
    hide Decide, Absorb, Covers;
    if ms != [] {
      AbsorbCovers(ms[0], demands, t);
      RunCovers(ms[1..], demands, Absorb(ms[0], Decide(ms[0], demands, t), t));
    }
  }

  lemma OpeningCovers(s: Snapshot)
    requires DistinctDemands(s.demands)
    ensures Covers(Opening(s), s.demands)
  {
    hide SupplyOf, LastOf;
    OpeningEntries(s.demands);
  }

  // ----- the queue -----

  /** Pending members in arrival order, and the members put to wait by earlier batches. */
  datatype Queue = Queue(pending: seq<Member>, waiting: multiset<Member>)

  /** One claim: some waiting members are woken, then the first members of the line are taken. */
  datatype Round = Round(woken: seq<Member>, line: seq<Member>)

  function Batch(r: Round): (b: seq<Member>)
    ensures |b| <= TASK_LIMIT
  {
    if |r.line| <= TASK_LIMIT then r.line else r.line[..TASK_LIMIT]
  }

  ghost predicate FormsRound(q: Queue, r: Round) {
    && multiset(r.woken) <= q.waiting
    && multiset(r.line) == multiset(q.pending) + multiset(r.woken)
    && Sorted(Earlier, r.line) && r.line != []
  }

  ghost function Blocked(ms: seq<Member>, demands: seq<Demand>): multiset<Member> {
    multiset(ms) - multiset(Assignable(ms, demands))
  }

  ghost function AfterRound(q: Queue, r: Round, demands: seq<Demand>): Queue {
    Queue(r.line[|Batch(r)|..], q.waiting - multiset(r.woken) + Blocked(Batch(r), demands))
  }

  ghost predicate Drains(q: Queue, rounds: seq<Round>, demands: seq<Demand>)
    decreases |rounds|
  {
    if rounds == [] then q.pending == []
    else FormsRound(q, rounds[0]) && Drains(AfterRound(q, rounds[0], demands), rounds[1..], demands)
  }

  /** The snapshot of one batch, taken after the earlier batches were committed. */
  ghost function BatchSnapshot(s: Snapshot, r: Round, t: Tally): Snapshot {
    s.(members := Batch(r), demands := Refreshed(s.demands, t), nextSequence := t.sequence)
  }

  /** All picks of a drain, each batch planned from its own snapshot. */
  ghost function DrainPicks(s: Snapshot, rounds: seq<Round>, t: Tally): (seq<Decision>, Tally) {
    if rounds == [] then ([], t)
    else
      var outcome := Outcome(BatchSnapshot(s, rounds[0], t));
      var rest := DrainPicks(s, rounds[1..], outcome.1);
      (Picks(outcome.0) + rest.0, rest.1)
  }

  lemma {:induction false} AssignableSorted(ms: seq<Member>, demands: seq<Demand>)
    requires Sorted(Earlier, ms)
    ensures Sorted(Earlier, Assignable(ms, demands))
  {
    hide AnyFeasible, Earlier;
    if ms != [] {
      AssignableSorted(ms[1..], demands);
      var tail := Assignable(ms[1..], demands);
      var r := Assignable(ms, demands);
      if AnyFeasible(ms[0], demands) {
        assert r == [ms[0]] + tail;
        forall j | 0 < j < |r| ensures Earlier(r[0], r[j]) {
          assert r[j] in tail;
          var k :| 0 <= k < |ms[1..]| && ms[1..][k] == r[j];
          assert ms[k + 1] == r[j];
        }
      } else {
        assert r == tail;
      }
    }
  }

  /** How often a member occurs among the assignable ones. */
  lemma {:induction false} AssignableCount(ms: seq<Member>, demands: seq<Demand>, m: Member)
    ensures multiset(Assignable(ms, demands))[m] == if AnyFeasible(m, demands) then multiset(ms)[m] else 0
  {
    hide AnyFeasible;
    if ms != [] {
      AssignableCount(ms[1..], demands, m);
      assert ms == [ms[0]] + ms[1..];
    }
  }

  lemma AssignableOfUnion(line: seq<Member>, a: seq<Member>, b: seq<Member>, demands: seq<Demand>)
    requires multiset(line) == multiset(a) + multiset(b)
    requires forall m | m in b :: !AnyFeasible(m, demands)
    ensures multiset(Assignable(line, demands)) == multiset(Assignable(a, demands))
  {
    hide AnyFeasible, Assignable;
    forall m ensures multiset(Assignable(line, demands))[m] == multiset(Assignable(a, demands))[m] {
      AssignableCount(line, demands, m);
      AssignableCount(a, demands, m);
      if AnyFeasible(m, demands) {
        assert m !in b && multiset(b)[m] == 0;
      }
    }
  }

  lemma BlockedHaveNoDemand(ms: seq<Member>, demands: seq<Demand>)
    ensures forall m | m in Blocked(ms, demands) :: !AnyFeasible(m, demands)
  {
    hide AnyFeasible, Assignable;
    forall m | m in Blocked(ms, demands) ensures !AnyFeasible(m, demands) {
      AssignableCount(ms, demands, m);
    }
  }

  /** What must hold of a queue for its drain to equal the single run. */
  ghost predicate Orderly(q: Queue, demands: seq<Demand>) {
    && Sorted(Earlier, q.pending) && Separates(Earlier, q.pending)
    && forall m | m in q.waiting :: !AnyFeasible(m, demands)
  }

  lemma {:induction false} DrainEqualsRun(s: Snapshot, all: seq<Member>, q: Queue, rounds: seq<Round>, t: Tally)
    requires DistinctDemands(s.demands) && Covers(t, s.demands)
    requires Orderly(q, s.demands) && Drains(q, rounds, s.demands)
    requires Within(q, all) && Separates(Earlier, all)
    ensures DrainPicks(s, rounds, t) == Run(Assignable(q.pending, s.demands), s.demands, t)
    decreases |rounds|
  {
    hide Assignable, AnyFeasible, Earlier, Covers, SortBy, Run, SupplyOf, LastOf, Picks;
    var demands := s.demands;
    if rounds == [] {
      NothingToRun(demands, t);
    } else {
      var r := rounds[0];
      var batch, rest := Batch(r), r.line[|Batch(r)|..];
      assert r.line == batch + rest;
      StaysWithin(all, q, r, demands);
      BatchOutcome(s, r, t);
      var t1 := Run(batch, demands, t).1;
      WaitersLeaveNoTrace(batch, demands, t);
      RunCovers(batch, demands, t);
      LineAssignable(q, r, demands);
      AssignableAppend(batch, rest, demands);
      RunAppend(Assignable(batch, demands), Assignable(rest, demands), demands, t);
      NextOrderly(q, r, demands);
      DrainEqualsRun(s, all, AfterRound(q, r, demands), rounds[1..], t1);
    }
  }

  ghost predicate Within(q: Queue, all: seq<Member>) {
    multiset(q.pending) + q.waiting <= multiset(all)
  }

  lemma StaysWithin(all: seq<Member>, q: Queue, r: Round, demands: seq<Demand>)
    requires Within(q, all) && Separates(Earlier, all) && FormsRound(q, r)
    ensures Within(AfterRound(q, r, demands), all) && Separates(Earlier, r.line)
  {
    hide Earlier, Assignable;
    var batch, rest := Batch(r), r.line[|Batch(r)|..];
    assert r.line == batch + rest;
    assert multiset(r.line) == multiset(batch) + multiset(rest);
    assert multiset(batch) + multiset(rest) == multiset(q.pending) + multiset(r.woken);
    forall m ensures multiset(rest)[m] + (q.waiting - multiset(r.woken) + Blocked(batch, demands))[m] <= multiset(all)[m] {
      assert (multiset(batch) + multiset(rest))[m] == (multiset(q.pending) + multiset(r.woken))[m];
      assert Blocked(batch, demands)[m] <= multiset(batch)[m];
      assert (multiset(q.pending) + q.waiting)[m] <= multiset(all)[m];
      assert multiset(r.woken)[m] <= q.waiting[m];
    }
    forall m | m in r.line ensures m in all {
      assert multiset(r.line)[m] > 0;
      assert multiset(r.woken)[m] <= q.waiting[m];
      assert (multiset(q.pending) + q.waiting)[m] <= multiset(all)[m];
      assert m in multiset(all);
    }
  }

  lemma NothingToRun(demands: seq<Demand>, t: Tally)
    ensures Run(Assignable([], demands), demands, t) == ([], t)
  {}

  lemma BatchOutcome(s: Snapshot, r: Round, t: Tally)
    requires DistinctDemands(s.demands) && Covers(t, s.demands)
    requires Sorted(Earlier, r.line) && Separates(Earlier, r.line)
    ensures Outcome(BatchSnapshot(s, r, t)) == Run(Batch(r), s.demands, t)
  {
    hide Earlier, SortBy, Run, SupplyOf, LastOf;
    var batch := Batch(r);
    assert forall m | m in batch :: m in r.line;
    MemberOrders();
    SortBySorted(Earlier, batch);
    SortedUnique(Earlier, batch, SortBy(Earlier, batch));
    OpeningRefreshed(s.demands, t);
    RunRefreshed(batch, s.demands, t, t);
  }

  /** Waking members nobody can take does not change the line of assignable members. */
  lemma LineAssignable(q: Queue, r: Round, demands: seq<Demand>)
    requires Orderly(q, demands) && FormsRound(q, r)
    ensures Assignable(r.line, demands) == Assignable(q.pending, demands)
  {
    hide Assignable, AnyFeasible, Earlier;
    forall m | m in r.woken ensures !AnyFeasible(m, demands) {
      assert m in multiset(r.woken);
    }
    AssignableOfUnion(r.line, q.pending, r.woken, demands);
    AssignableSorted(r.line, demands);
    AssignableSorted(q.pending, demands);
    MemberOrders();
    assert Separates(Earlier, Assignable(q.pending, demands));
    SortedUnique(Earlier, Assignable(q.pending, demands), Assignable(r.line, demands));
  }

  lemma NextOrderly(q: Queue, r: Round, demands: seq<Demand>)
    requires Orderly(q, demands) && FormsRound(q, r) && Separates(Earlier, r.line)
    ensures Orderly(AfterRound(q, r, demands), demands)
  {
    hide Assignable, AnyFeasible, Earlier;
    var rest := r.line[|Batch(r)|..];
    assert forall m | m in rest :: m in r.line;
    BlockedHaveNoDemand(Batch(r), demands);
  }

  /** The main statement: any drain of the whole queue, in batches of at most 100 and with any
      choice of re-woken members, produces the picks, sequences and final quantities of one run. */
  lemma BatchingIsInvisible(s: Snapshot, rounds: seq<Round>)
    requires WellKeyed(s)
    requires Drains(Queue(SortBy(Earlier, s.members), multiset{}), rounds, s.demands)
    ensures DrainPicks(s, rounds, Opening(s)).0 == Picks(Plan(s))
    ensures DrainPicks(s, rounds, Opening(s)).1 == Outcome(s).1
  {
    hide Assignable, AnyFeasible, Earlier, SortBy, Run, Picks, Drains, SupplyOf, LastOf;
    var sorted := SortBy(Earlier, s.members);
    MemberOrders();
    SortBySorted(Earlier, s.members);
    MembersSeparated(s.members);
    SameElements(sorted, s.members);
    OpeningCovers(s);
    DrainEqualsRun(s, s.members, Queue(sorted, multiset{}), rounds, Opening(s));
    WaitersLeaveNoTrace(sorted, s.demands, Opening(s));
  }

  /** A drain always exists: batches can be formed from the line until it is empty. */
  lemma SomeDrain(q: Queue, demands: seq<Demand>) returns (rounds: seq<Round>)
    requires Sorted(Earlier, q.pending)
    ensures Drains(q, rounds, demands)
    decreases |q.pending|
  {
    hide Earlier, Blocked;
    if q.pending == [] {
      rounds := [];
    } else {
      var r := Round([], q.pending);
      var next := AfterRound(q, r, demands);
      assert next.pending == q.pending[|Batch(r)|..];
      var rest := SomeDrain(next, demands);
      rounds := [r] + rest;
      assert rounds[1..] == rest && FormsRound(q, r);
    }
  }
}
