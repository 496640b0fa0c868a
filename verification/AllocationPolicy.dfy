/** The deterministic allocator. The specification chooses, for every member, the feasible demand
    of least rank; the methods are the program's running-best loops and are proved against it. */
module AllocationPolicy {
  import opened Orders
  import opened AllocationTypes

  // ----- eligibility -----

  predicate Usable(t: Tag) {
    t.verified && t.status == "supported" && (t.source == "manual" || t.confidenceBps >= 8000)
  }

  /** Assertion reference of every usable tag code; a later tag replaces an earlier one. */
  function TagTable(tags: seq<Tag>): map<string, string> {
    if tags == [] then map[]
    else
      var t := tags[|tags| - 1];
      var rest := TagTable(tags[..|tags| - 1]);
      if Usable(t) then rest[t.code := t.assertionRef] else rest
  }

  function Ref(table: map<string, string>, code: string): string {
    if code in table then table[code] else ""
  }

  predicate Holds(table: map<string, string>, code: string) { Ref(table, code) != "" }

  function Hits(table: map<string, string>, codes: seq<string>): nat {
    if codes == [] then 0
    else Hits(table, codes[..|codes| - 1]) + (if Holds(table, codes[|codes| - 1]) then 1 else 0)
  }

  predicate Open(m: Member, d: Demand) { d.demandId in m.allowed && d.reception.Receiving? }

  function Matched(table: map<string, string>, d: Demand): set<string> {
    (set c | c in d.required) + (set c | c in d.preferred && Holds(table, c))
  }

  predicate Feasible(m: Member, d: Demand) {
    var table := TagTable(m.tags);
    && Open(m, d)
    && (forall c | c in d.required :: Holds(table, c))
    && Matched(table, d) != {}
  }

  // ----- ranking and choice -----

  /** The quantities the loop feeds back: supply and last sequence by demand, next sequence. */
  datatype Tally = Tally(supply: map<int, int>, last: map<int, int>, sequence: int)

  function At(m: map<int, int>, k: int): int { if k in m then m[k] else 0 }

  function Rank(m: Member, d: Demand, t: Tally): (r: seq<int>)
    ensures |r| == 5
  {
    [0 - Hits(TagTable(m.tags), d.preferred), d.priority,
     At(t.supply, d.demandId), At(t.last, d.demandId), d.demandId]
  }

  ghost predicate AnyFeasible(m: Member, demands: seq<Demand>) {
    exists d :: d in demands && Feasible(m, d)
  }

  function Feasibles(m: Member, demands: seq<Demand>): (r: seq<bool>)
    ensures |r| == |demands| && forall i | 0 <= i < |demands| :: r[i] == Feasible(m, demands[i])
  {
    seq(|demands|, i requires 0 <= i < |demands| => Feasible(m, demands[i]))
  }

  function Ranks(m: Member, demands: seq<Demand>, t: Tally): (r: seq<seq<int>>)
    ensures |r| == |demands| && forall i | 0 <= i < |demands| :: r[i] == Rank(m, demands[i], t)
  {
    seq(|demands|, i requires 0 <= i < |demands| => Rank(m, demands[i], t))
  }

  /** Demand i is feasible, no feasible demand ranks below it and no earlier one ranks equal. */
  ghost predicate IsChoice(m: Member, demands: seq<Demand>, t: Tally, i: int) {
    Least(Feasibles(m, demands), Ranks(m, demands, t), i)
  }

  lemma SomeFeasible(m: Member, demands: seq<Demand>)
    ensures AnyFeasible(m, demands) <==> true in Feasibles(m, demands)
  {
    var ok := Feasibles(m, demands);
    if d :| d in demands && Feasible(m, d) {
      var i :| 0 <= i < |demands| && demands[i] == d;
      assert ok[i];
    }
    if true in ok {
      var i :| 0 <= i < |ok| && ok[i];
      assert demands[i] in demands && Feasible(m, demands[i]);
    }
  }

  lemma ChoiceExists(m: Member, demands: seq<Demand>, t: Tally)
    ensures AnyFeasible(m, demands) <==> exists i :: IsChoice(m, demands, t, i)
  {
    SomeFeasible(m, demands);
    if AnyFeasible(m, demands) {
      var i := LeastExists(Feasibles(m, demands), Ranks(m, demands, t));
      assert IsChoice(m, demands, t, i);
    }
    if i :| IsChoice(m, demands, t, i) {
      assert demands[i] in demands && Feasible(m, demands[i]);
    }
  }

  ghost function Listing(s: set<string>): (r: seq<string>)
    ensures multiset(r) == multiset(s)
  {
    if s == {} then []
    else
      var c :| c in s;
      assert multiset(s) == multiset{c} + multiset(s - {c});
      [c] + Listing(s - {c})
  }

  /** The set in increasing order. */
  ghost function InOrder(s: set<string>): seq<string> { SortBy(StringLe, Listing(s)) }

  function RefsOf(table: map<string, string>, codes: seq<string>): (r: seq<string>)
    ensures |r| == |codes| && forall i | 0 <= i < |codes| :: r[i] == Ref(table, codes[i])
  {
    seq(|codes|, i requires 0 <= i < |codes| => Ref(table, codes[i]))
  }

  ghost function Assignment(m: Member, d: Demand, t: Tally): Decision {
    var table := TagTable(m.tags);
    var keys := InOrder(Matched(table, d));
    Decision(m.memberId, m.qualificationRef, Assign, d.demandId, d.departmentRef,
             keys, RefsOf(table, keys), Rank(m, d, t), t.sequence, Allocated)
  }

  ghost function WaitReason(m: Member, demands: seq<Demand>): Reason {
    if exists d :: d in demands && Open(m, d) then RequiredTagsUnavailable
    else if m.allowed != [] then NoReceivingDemand
    else NoActiveMapping
  }

  function Waiting(m: Member, reason: Reason): Decision {
    Decision(m.memberId, m.qualificationRef, Wait, 0, 0, [], [], [], 0, reason)
  }

  ghost function Decide(m: Member, demands: seq<Demand>, t: Tally): (d: Decision)
    ensures d.action == Assign <==> AnyFeasible(m, demands)
    ensures d.memberId == m.memberId && d.qualificationRef == m.qualificationRef
  {
    ChoiceExists(m, demands, t);
    if i :| IsChoice(m, demands, t, i) then Assignment(m, demands[i], t)
    else Waiting(m, WaitReason(m, demands))
  }

  // ----- folding over members -----

  function Absorb(m: Member, d: Decision, t: Tally): Tally {
    if d.action == Wait then t
    else Tally(
      if d.demandId in m.counted then t.supply else t.supply[d.demandId := At(t.supply, d.demandId) + 1],
      t.last[d.demandId := t.sequence],
      t.sequence + 1)
  }

  ghost function Run(members: seq<Member>, demands: seq<Demand>, t: Tally): (r: (seq<Decision>, Tally))
    ensures |r.0| == |members|
  {
    if members == [] then ([], t)
    else
      var d := Decide(members[0], demands, t);
      var rest := Run(members[1..], demands, Absorb(members[0], d, t));
      ([d] + rest.0, rest.1)
  }

  function SupplyOf(demands: seq<Demand>): map<int, int> {
    if demands == [] then map[]
    else SupplyOf(demands[..|demands| - 1])[demands[|demands| - 1].demandId := demands[|demands| - 1].recentSupply]
  }

  function LastOf(demands: seq<Demand>): map<int, int> {
    if demands == [] then map[]
    else LastOf(demands[..|demands| - 1])[demands[|demands| - 1].demandId := demands[|demands| - 1].lastSequence]
  }

  function Opening(s: Snapshot): Tally { Tally(SupplyOf(s.demands), LastOf(s.demands), s.nextSequence) }

  function Arrival(m: Member): seq<int> { [m.createdAt, m.memberId] }

  predicate Earlier(a: Member, b: Member) { LexLe(Arrival(a), Arrival(b)) }

  ghost function Outcome(s: Snapshot): (seq<Decision>, Tally) {
    Run(SortBy(Earlier, s.members), s.demands, Opening(s))
  }

  /** The plan every committed result must equal. */
  ghost function Plan(s: Snapshot): seq<Decision> { Outcome(s).0 }

  // ----- the program's loops -----

  method CollectTags(m: Member) returns (table: map<string, string>)
    ensures table == TagTable(m.tags)
  {
    table := map[];
    for i := 0 to |m.tags|
      invariant table == TagTable(m.tags[..i])
    {
      assert m.tags[..i + 1][..i] == m.tags[..i];
      if Usable(m.tags[i]) {
        table := table[m.tags[i].code := m.tags[i].assertionRef];
      }
    }
    assert m.tags[..|m.tags|] == m.tags;
  }

  method CollectRequired(table: map<string, string>, codes: seq<string>) returns (all: bool, matched: set<string>)
    ensures all <==> forall c | c in codes :: Holds(table, c)
    ensures all ==> matched == set c | c in codes
  {
    hide Holds;
    matched := {};
    for i := 0 to |codes|
      invariant forall c | c in codes[..i] :: Holds(table, c)
      invariant matched == set c | c in codes[..i]
    {
      assert codes[..i + 1] == codes[..i] + [codes[i]];
      if !Holds(table, codes[i]) {
        all := false;
        return;
      }
      matched := matched + {codes[i]};
    }
    assert codes[..|codes|] == codes;
    all := true;
  }

  method CollectPreferred(table: map<string, string>, codes: seq<string>) returns (matched: set<string>, hits: int)
    ensures matched == set c | c in codes && Holds(table, c)
    ensures hits == Hits(table, codes)
  {
    hide Holds;
    matched, hits := {}, 0;
    for i := 0 to |codes|
      invariant matched == set c | c in codes[..i] && Holds(table, c)
      invariant hits == Hits(table, codes[..i])
    {
      assert codes[..i + 1] == codes[..i] + [codes[i]] && codes[..i + 1][..i] == codes[..i];
      if Holds(table, codes[i]) {
        matched := matched + {codes[i]};
        hits := hits + 1;
      }
    }
    assert codes[..|codes|] == codes;
  }

  method Examine(table: map<string, string>, d: Demand) returns (all: bool, matched: set<string>, preferred: int)
    ensures all <==> forall c | c in d.required :: Holds(table, c)
    ensures all ==> matched == Matched(table, d) && preferred == Hits(table, d.preferred)
  {
    preferred := 0;
    all, matched := CollectRequired(table, d.required);
    if all {
      var more;
      more, preferred := CollectPreferred(table, d.preferred);
      matched := matched + more;
    }
  }

  /** The element-by-element comparison of two order vectors. */
  method Better(order: seq<int>, best: seq<int>) returns (better: bool)
    requires |order| == |best|
    ensures better <==> LexLe(order, best) && order != best
  {
    better := false;
    ghost var goal := LexLe(order, best) && order != best;
    for i := 0 to |order|
      invariant goal <==> LexLe(order[i..], best[i..]) && order[i..] != best[i..]
    {
      assert order[i..] == [order[i]] + order[i + 1..] && best[i..] == [best[i]] + best[i + 1..];
      if order[i] != best[i] {
        better := order[i] < best[i];
        return;
      }
    }
  }

  method SortedKeys(matched: set<string>) returns (keys: seq<string>)
    ensures keys == InOrder(matched)
  {
    keys := [];
    var rest := matched;
    while rest != {}
      invariant rest <= matched
      invariant multiset(keys) == multiset(matched - rest)
    {
      var k :| k in rest;
      assert matched - (rest - {k}) == (matched - rest) + {k};
      keys := keys + [k];
      rest := rest - {k};
    }
    assert matched - rest == matched;
    StringOrder();
    SortByCongruent(StringLe, keys, Listing(matched));
    keys := SortBy(StringLe, keys);
  }

  method ContainsId(ids: seq<int>, id: int) returns (found: bool)
    ensures found <==> id in ids
  {
    for i := 0 to |ids|
      invariant id !in ids[..i]
    {
      if ids[i] == id {
        return true;
      }
    }
    found := false;
  }

  /** The running best after the first n demands. */
  ghost predicate BestSoFar(m: Member, demands: seq<Demand>, t: Tally, n: nat, result: Decision)
    requires n <= |demands|
  {
    var ok, rank := Feasibles(m, demands), Ranks(m, demands, t);
    if true in ok[..n]
    then exists b :: Least(ok[..n], rank[..n], b) && result == Assignment(m, demands[b], t)
    else result == Waiting(m, WaitReason(m, demands[..n]))
  }

  /** What one turn of the demand loop does to the running best. */
  ghost function Considered(m: Member, d: Demand, t: Tally, best: Decision): Decision
    requires best.action == Assign ==> |best.order| == 5
  {
    if !Feasible(m, d) then
      if best.action == Wait && Open(m, d) then best.(reason := RequiredTagsUnavailable) else best
    else if best.action == Wait || (LexLe(Rank(m, d, t), best.order) && Rank(m, d, t) != best.order)
    then Assignment(m, d, t) else best
  }

  lemma ConsideredIsBest(m: Member, demands: seq<Demand>, t: Tally, n: nat, best: Decision)
    requires n < |demands| && BestSoFar(m, demands, t, n, best)
    ensures best.action == Assign ==> |best.order| == 5
    ensures BestSoFar(m, demands, t, n + 1, Considered(m, demands[n], t, best))
  {
    hide InOrder, Feasible, LexLe, Rank;
    var ok, rank := Feasibles(m, demands), Ranks(m, demands, t);
    assert ok[..n + 1] == ok[..n] + [ok[n]] && rank[..n + 1] == rank[..n] + [rank[n]];
    if true in ok[..n] {
      var b :| Least(ok[..n], rank[..n], b) && best == Assignment(m, demands[b], t);
      LeastExtend(ok, rank, n, b);
      var c := if ok[n] && LexLe(rank[n], rank[b]) && rank[n] != rank[b] then n else b;
      assert best.order == rank[b];
      assert Considered(m, demands[n], t, best) == Assignment(m, demands[c], t);
      assert Least(ok[..n + 1], rank[..n + 1], c);
      assert ok[..n + 1][c];
    } else if ok[n] {
      LexTotal(rank[n], rank[n]);
      assert forall j | 0 <= j < n :: ok[..n][j] == ok[j];
      assert Least(ok[..n + 1], rank[..n + 1], n);
    } else {
      assert demands[..n + 1] == demands[..n] + [demands[n]];
    }
  }

  method Consider(m: Member, table: map<string, string>, d: Demand, t: Tally, best: Decision)
    returns (result: Decision)
    requires table == TagTable(m.tags)
    requires best.action == Assign ==> |best.order| == 5
    ensures result == Considered(m, d, t, best)
  {
    result := best;
    var allowed := ContainsId(m.allowed, d.demandId);
    if !allowed || !d.reception.Receiving? {
      return;
    }
    if result.action == Wait {
      result := result.(reason := RequiredTagsUnavailable);
    }
    var all, matched, preferred := Examine(table, d);
    if !all || matched == {} {
      return;
    }
    var order := [0 - preferred, d.priority, At(t.supply, d.demandId), At(t.last, d.demandId), d.demandId];
    assert order == Rank(m, d, t);
    var better := result.action == Wait;
    if !better {
      better := Better(order, result.order);
    }
    if !better {
      return;
    }
    var keys := SortedKeys(matched);
    result := Decision(m.memberId, m.qualificationRef, Assign, d.demandId, d.departmentRef,
                       keys, RefsOf(table, keys), order, t.sequence, Allocated);
  }

  method Choose(m: Member, demands: seq<Demand>, t: Tally) returns (result: Decision)
    ensures result == Decide(m, demands, t)
  {
    result := Waiting(m, if m.allowed != [] then NoReceivingDemand else NoActiveMapping);
    var table := CollectTags(m);
    for i := 0 to |demands|
      invariant BestSoFar(m, demands, t, i, result)
    {
      ConsideredIsBest(m, demands, t, i, result);
      result := Consider(m, table, demands[i], t, result);
    }
    BestIsDecision(m, demands, t, result);
  }

  lemma BestIsDecision(m: Member, demands: seq<Demand>, t: Tally, result: Decision)
    requires BestSoFar(m, demands, t, |demands|, result)
    ensures result == Decide(m, demands, t)
  {
    hide InOrder, Feasible, LexLe, Rank;
    var ok, rank := Feasibles(m, demands), Ranks(m, demands, t);
    assert ok[..|demands|] == ok && rank[..|demands|] == rank && demands[..|demands|] == demands;
    SomeFeasible(m, demands);
    ChoiceExists(m, demands, t);
    if true in ok {
      var b :| Least(ok[..|demands|], rank[..|demands|], b) && result == Assignment(m, demands[b], t);
      var c :| IsChoice(m, demands, t, c) && Decide(m, demands, t) == Assignment(m, demands[c], t);
      LeastUnique(ok, rank, b, c);
    }
  }

  lemma RunUnfolds(members: seq<Member>, demands: seq<Demand>, t: Tally, i: nat, done: seq<Decision>)
    requires i < |members|
    ensures var d := Decide(members[i], demands, t);
            done + Run(members[i..], demands, t).0
            == (done + [d]) + Run(members[i + 1..], demands, Absorb(members[i], d, t)).0
  {
    hide Decide, Absorb;
    assert members[i..][1..] == members[i + 1..];
    var d := Decide(members[i], demands, t);
    var rest := Run(members[i + 1..], demands, Absorb(members[i], d, t)).0;
    assert Run(members[i..], demands, t).0 == [d] + rest;
    assert done + ([d] + rest) == (done + [d]) + rest;
  }

  method LoadDemands(s: Snapshot) returns (t: Tally)
    ensures t == Opening(s)
  {
    var supply: map<int, int>, last: map<int, int> := map[], map[];
    for i := 0 to |s.demands|
      invariant supply == SupplyOf(s.demands[..i]) && last == LastOf(s.demands[..i])
    {
      assert s.demands[..i + 1][..i] == s.demands[..i];
      supply := supply[s.demands[i].demandId := s.demands[i].recentSupply];
      last := last[s.demands[i].demandId := s.demands[i].lastSequence];
    }
    assert s.demands[..|s.demands|] == s.demands;
    t := Tally(supply, last, s.nextSequence);
  }

  /** Feeding a pick back into the running quantities. */
  method Feed(m: Member, result: Decision, t: Tally) returns (next: Tally)
    ensures next == Absorb(m, result, t)
  {
    next := t;
    if result.action == Assign {
      var counted := ContainsId(m.counted, result.demandId);
      if !counted {
        next := next.(supply := t.supply[result.demandId := At(t.supply, result.demandId) + 1]);
      }
      next := next.(last := t.last[result.demandId := t.sequence], sequence := t.sequence + 1);
    }
  }

  method AllocateInTurn(members: seq<Member>, demands: seq<Demand>, opening: Tally)
    returns (decisions: seq<Decision>)
    ensures decisions == Run(members, demands, opening).0
  {
    hide Decide, Absorb;
    var t := opening;
    decisions := [];
    assert members[0..] == members && [] + Run(members, demands, t).0 == Run(members, demands, t).0;
    for i := 0 to |members|
      invariant decisions + Run(members[i..], demands, t).0 == Run(members, demands, opening).0
    {
      RunUnfolds(members, demands, t, i, decisions);
      var result := Choose(members[i], demands, t);
      t := Feed(members[i], result, t);
      decisions := decisions + [result];
    }
    assert decisions + [] == decisions;
  }

  /** The whole recomputation: order the members, then let every pick feed the next. */
  method ExpectedAllocation(s: Snapshot) returns (decisions: seq<Decision>)
    ensures decisions == Plan(s)
  {
    hide Run, SortBy, SupplyOf, LastOf;
    var members := SortBy(Earlier, s.members);
    var t := LoadDemands(s);
    decisions := AllocateInTurn(members, s.demands, t);
  }
}
