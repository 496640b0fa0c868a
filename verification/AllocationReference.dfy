/** The set-and-minimum reference calculation of the design document, and the theorem that the
    running-best loop places every member as the reference does. */
module AllocationReference {
  import opened Orders
  import opened AllocationTypes
  import opened AllocationPolicy
  import opened AllocationCanonical
  import Store = AllocationStore

  datatype RefDemand = RefDemand(
    id: nat, active: bool, reception: Reception, required: seq<string>, preferred: seq<string>,
    priority: int, recentSupply: int, lastSequence: int)

  datatype RefCandidate = RefCandidate(createdOrder: int, id: int, tags: seq<Tag>, allowed: seq<int>)

  datatype RefCase = RefCase(demands: seq<RefDemand>, candidates: seq<RefCandidate>)

  datatype RefOutcome = Placed(memberId: int, demandId: nat) | Unplaced(memberId: int, reason: Reason)

  datatype RefTally = RefTally(supply: map<int, int>, sequence: map<int, int>, next: int)

  function Supported(c: RefCandidate): set<string> {
    set t | t in c.tags && t.status == "supported" && t.verified && (t.source == "manual" || t.confidenceBps >= 8000) :: t.code
  }

  function ToSet(codes: seq<string>): set<string> { set c | c in codes }

  predicate IsMapped(c: RefCandidate, d: RefDemand) { d.id in c.allowed && d.active }

  predicate IsReceiving(c: RefCandidate, d: RefDemand) { IsMapped(c, d) && d.reception.Receiving? }

  predicate IsOption(c: RefCandidate, d: RefDemand) {
    var required, preferred, supported := ToSet(d.required), ToSet(d.preferred), Supported(c);
    && IsReceiving(c, d)
    && required <= supported
    && (required + preferred) * supported != {}
  }

  function Key(c: RefCandidate, d: RefDemand, t: RefTally): (k: seq<int>)
    ensures |k| == 5
  {
    [0 - |ToSet(d.preferred) * Supported(c)|, d.priority, At(t.supply, d.id), At(t.sequence, d.id), d.id]
  }

  function RefOptions(c: RefCandidate, demands: seq<RefDemand>): (r: seq<bool>)
    ensures |r| == |demands| && forall i | 0 <= i < |demands| :: r[i] == IsOption(c, demands[i])
  {
    seq(|demands|, i requires 0 <= i < |demands| => IsOption(c, demands[i]))
  }

  function Keys(c: RefCandidate, demands: seq<RefDemand>, t: RefTally): (r: seq<seq<int>>)
    ensures |r| == |demands| && forall i | 0 <= i < |demands| :: r[i] == Key(c, demands[i], t)
  {
    seq(|demands|, i requires 0 <= i < |demands| => Key(c, demands[i], t))
  }

  /** The option of least key; keys end in the demand id, so it is unique. */
  ghost predicate IsMinimum(c: RefCandidate, demands: seq<RefDemand>, t: RefTally, i: int) {
    Least(RefOptions(c, demands), Keys(c, demands, t), i)
  }

  ghost function RefReason(c: RefCandidate, demands: seq<RefDemand>): Reason {
    if !exists d :: d in demands && IsMapped(c, d) then NoActiveMapping
    else if !exists d :: d in demands && IsReceiving(c, d) then NoReceivingDemand
    else RequiredTagsUnavailable
  }

  ghost function RefDecide(c: RefCandidate, demands: seq<RefDemand>, t: RefTally): RefOutcome {
    if i :| IsMinimum(c, demands, t, i) then Placed(c.id, demands[i].id)
    else Unplaced(c.id, RefReason(c, demands))
  }

  function RefAbsorb(o: RefOutcome, t: RefTally): RefTally {
    match o
    case Unplaced(_, _) => t
    case Placed(_, d) => RefTally(t.supply[d := At(t.supply, d) + 1], t.sequence[d := t.next], t.next + 1)
  }

  ghost function RefRun(cs: seq<RefCandidate>, demands: seq<RefDemand>, t: RefTally): (r: seq<RefOutcome>)
    ensures |r| == |cs|
  {
    if cs == [] then []
    else
      var o := RefDecide(cs[0], demands, t);
      [o] + RefRun(cs[1..], demands, RefAbsorb(o, t))
  }

  function RefSupply(demands: seq<RefDemand>): map<int, int> {
    if demands == [] then map[]
    else RefSupply(demands[..|demands| - 1])[demands[|demands| - 1].id := demands[|demands| - 1].recentSupply]
  }

  function RefLast(demands: seq<RefDemand>): map<int, int> {
    if demands == [] then map[]
    else RefLast(demands[..|demands| - 1])[demands[|demands| - 1].id := demands[|demands| - 1].lastSequence]
  }

  /** max(sequence.values(), default=0) over the demands' last sequences. */
  function MaxLast(demands: seq<RefDemand>): int {
    if demands == [] then 0
    else if |demands| == 1 then demands[0].lastSequence
    else
      var rest := MaxLast(demands[..|demands| - 1]);
      if demands[|demands| - 1].lastSequence > rest then demands[|demands| - 1].lastSequence else rest
  }

  function RefOpening(demands: seq<RefDemand>): RefTally {
    RefTally(RefSupply(demands), RefLast(demands), MaxLast(demands) + 1)
  }

  function RefArrival(c: RefCandidate): seq<int> { [c.createdOrder, c.id] }
  predicate RefEarlier(a: RefCandidate, b: RefCandidate) { LexLe(RefArrival(a), RefArrival(b)) }

  /** What the reference computes. */
  ghost function Reference(k: RefCase): seq<RefOutcome> {
    RefRun(SortBy(RefEarlier, k.candidates), k.demands, RefOpening(k.demands))
  }

  // ----- the reference program -----

  method MinimumOption(c: RefCandidate, demands: seq<RefDemand>, t: RefTally) returns (found: bool, i: nat)
    ensures found <==> true in RefOptions(c, demands)
    ensures found ==> i < |demands| && IsMinimum(c, demands, t, i)
  {
    hide IsOption, Key;
    var ok, key := RefOptions(c, demands), Keys(c, demands, t);
    found, i := false, 0;
    for n := 0 to |demands|
      invariant found <==> true in ok[..n]
      invariant found ==> Least(ok[..n], key[..n], i)
    {
      assert ok[..n + 1] == ok[..n] + [ok[n]] && key[..n + 1] == key[..n] + [key[n]];
      if found {
        LeastExtend(ok, key, n, i);
        if ok[n] && LexLe(key[n], key[i]) && key[n] != key[i] {
          i := n;
        }
      } else if ok[n] {
        LexTotal(key[n], key[n]);
        assert forall j | 0 <= j < n :: ok[..n][j] == ok[j];
        found, i := true, n;
      }
    }
    assert ok[..|demands|] == ok && key[..|demands|] == key;
  }

  method Explain(c: RefCandidate, demands: seq<RefDemand>) returns (reason: Reason)
    ensures reason == RefReason(c, demands)
  {
    var mapped, receiving := false, false;
    for n := 0 to |demands|
      invariant mapped <==> exists d :: d in demands[..n] && IsMapped(c, d)
      invariant receiving <==> exists d :: d in demands[..n] && IsReceiving(c, d)
    {
      assert demands[..n + 1] == demands[..n] + [demands[n]];
      mapped := mapped || IsMapped(c, demands[n]);
      receiving := receiving || IsReceiving(c, demands[n]);
    }
    assert demands[..|demands|] == demands;
    reason := if !mapped then NoActiveMapping else if !receiving then NoReceivingDemand else RequiredTagsUnavailable;
  }

  lemma RefDecideIs(c: RefCandidate, demands: seq<RefDemand>, t: RefTally, found: bool, i: nat)
    requires found <==> true in RefOptions(c, demands)
    requires found ==> i < |demands| && IsMinimum(c, demands, t, i)
    ensures RefDecide(c, demands, t) == if found then Placed(c.id, demands[i].id) else Unplaced(c.id, RefReason(c, demands))
  {
    hide LexLe, IsOption, Key;
    if found {
      forall j | IsMinimum(c, demands, t, j) ensures j == i {
        LeastUnique(RefOptions(c, demands), Keys(c, demands, t), i, j);
      }
    } else {
      forall j ensures !IsMinimum(c, demands, t, j) {
        if 0 <= j < |demands| { assert RefOptions(c, demands)[j] in RefOptions(c, demands); }
      }
    }
  }

  method Calculate(k: RefCase) returns (outcomes: seq<RefOutcome>)
    ensures outcomes == Reference(k)
  {
    hide RefRun, SortBy, RefSupply, RefLast, MaxLast;
    var candidates := SortBy(RefEarlier, k.candidates);
    outcomes := PlaceInTurn(candidates, k.demands, RefOpening(k.demands));
  }

  lemma RefRunUnfolds(cs: seq<RefCandidate>, demands: seq<RefDemand>, t: RefTally, n: nat, done: seq<RefOutcome>)
    requires n < |cs|
    ensures var o := RefDecide(cs[n], demands, t);
            done + RefRun(cs[n..], demands, t) == (done + [o]) + RefRun(cs[n + 1..], demands, RefAbsorb(o, t))
  {
    hide RefDecide;
    assert cs[n..][1..] == cs[n + 1..];
    var o := RefDecide(cs[n], demands, t);
    var rest := RefRun(cs[n + 1..], demands, RefAbsorb(o, t));
    assert done + ([o] + rest) == (done + [o]) + rest;
  }

  method PlaceOne(c: RefCandidate, demands: seq<RefDemand>, t: RefTally) returns (o: RefOutcome, next: RefTally)
    ensures o == RefDecide(c, demands, t) && next == RefAbsorb(o, t)
  {
    hide IsMinimum, RefReason, RefDecide;
    var found, i := MinimumOption(c, demands, t);
    var reason := Explain(c, demands);
    RefDecideIs(c, demands, t, found, i);
    o, next := Unplaced(c.id, reason), t;
    if found {
      var selected := demands[i].id;
      next := next.(supply := t.supply[selected := At(t.supply, selected) + 1]);
      next := next.(sequence := t.sequence[selected := t.next], next := t.next + 1);
      o := Placed(c.id, selected);
    }
  }

  method PlaceInTurn(candidates: seq<RefCandidate>, demands: seq<RefDemand>, opening: RefTally)
    returns (outcomes: seq<RefOutcome>)
    ensures outcomes == RefRun(candidates, demands, opening)
  {
    hide RefDecide, RefAbsorb;
    var t := opening;
    assert candidates[0..] == candidates && [] + RefRun(candidates, demands, t) == RefRun(candidates, demands, t);
    outcomes := [];
    for n := 0 to |candidates|
      invariant outcomes + RefRun(candidates[n..], demands, t) == RefRun(candidates, demands, opening)
    {
      RefRunUnfolds(candidates, demands, t, n, outcomes);
      var o;
      o, t := PlaceOne(candidates[n], demands, t);
      outcomes := outcomes + [o];
    }
    assert outcomes + [] == outcomes;
  }

  // ----- the snapshot as a reference case -----

  function CaseDemand(d: Demand): RefDemand {
    RefDemand(d.demandId, true, d.reception, d.required, d.preferred, d.priority, d.recentSupply, d.lastSequence)
  }

  function CaseCandidate(m: Member): RefCandidate { RefCandidate(m.createdAt, m.memberId, m.tags, m.allowed) }

  function CaseOf(s: Snapshot): RefCase {
    RefCase(Each(CaseDemand, s.demands), Each(CaseCandidate, s.members))
  }

  /** No code twice. */
  ghost predicate NoRepeats(codes: seq<string>) { forall i, j | 0 <= i < j < |codes| :: codes[i] != codes[j] }

  /** The inputs on which the two calculations are promised to agree. */
  ghost predicate Comparable(s: Snapshot) {
    && WellKeyed(s)
    && (forall m | m in s.members :: m.counted == [] && forall t | t in m.tags :: t.assertionRef != "")
    && (forall d | d in s.demands :: NoRepeats(d.preferred) && d.lastSequence < s.nextSequence)
  }

  /** Some demand of the snapshot is among the allowed ids, unless none is allowed at all. */
  ghost predicate AllowedIsMapped(m: Member, demands: seq<Demand>) {
    m.allowed == [] || exists d :: d in demands && d.demandId in m.allowed
  }

  predicate Agree(d: Decision, o: RefOutcome) {
    match o
    case Placed(m, c) => d.action == Assign && d.memberId == m && d.demandId == c
    case Unplaced(m, r) => d.action == Wait && d.memberId == m && d.reason == r
  }

  lemma SupportedIsHeld(m: Member)
    requires DistinctCodes(m.tags) && forall t | t in m.tags :: t.assertionRef != ""
    ensures forall c :: c in Supported(CaseCandidate(m)) <==> Holds(TagTable(m.tags), c)
  {
    TagTableEntries(m.tags);
  }

  lemma {:induction false} HitsIsSetSize(table: map<string, string>, codes: seq<string>, held: set<string>)
    requires NoRepeats(codes) && forall c :: c in held <==> Holds(table, c)
    ensures Hits(table, codes) == |ToSet(codes) * held|
  {
    hide Holds;
    if codes == [] {
      assert ToSet(codes) * held == {};
    } else {
      var n := |codes| - 1;
      HitsIsSetSize(table, codes[..n], held);
      AddCode(codes[..n], codes[n], held);
      assert codes == codes[..n] + [codes[n]];
    }
  }

  lemma AddCode(codes: seq<string>, c: string, held: set<string>)
    requires c !in codes
    ensures |ToSet(codes + [c]) * held| == |ToSet(codes) * held| + if c in held then 1 else 0
  {
    assert ToSet(codes + [c]) == ToSet(codes) + {c};
    if c in held {
      assert ToSet(codes + [c]) * held == (ToSet(codes) * held) + {c};
    } else {
      assert ToSet(codes + [c]) * held == ToSet(codes) * held;
    }
  }

  lemma OptionIsFeasible(m: Member, d: Demand)
    requires DistinctCodes(m.tags) && forall t | t in m.tags :: t.assertionRef != ""
    ensures IsOption(CaseCandidate(m), CaseDemand(d)) <==> Feasible(m, d)
  {
    hide TagTable, Holds, Supported;
    SupportedIsHeld(m);
    var table, held := TagTable(m.tags), Supported(CaseCandidate(m));
    assert ToSet(d.required) <= held <==> forall c | c in d.required :: Holds(table, c);
    if forall c | c in d.required :: Holds(table, c) {
      assert (ToSet(d.required) + ToSet(d.preferred)) * held == Matched(table, d);
    }
  }

  // ----- the two numberings order the demands alike -----

  ghost predicate SameOrder(ids: set<nat>, t: Tally, r: RefTally) {
    && (forall c | c in ids :: At(t.supply, c) == At(r.supply, c))
    && (forall c, e | c in ids && e in ids :: At(t.last, c) <= At(t.last, e) <==> At(r.sequence, c) <= At(r.sequence, e))
    && (forall c | c in ids :: At(t.last, c) < t.sequence && At(r.sequence, c) < r.next)
  }

  lemma SameOrderKept(ids: set<nat>, m: Member, d: Decision, t: Tally, o: RefOutcome, r: RefTally)
    requires SameOrder(ids, t, r) && m.counted == []
    requires d.action == Assign ==> o.Placed? && o.demandId == d.demandId && d.demandId in ids
    requires d.action == Wait ==> o.Unplaced?
    ensures SameOrder(ids, Absorb(m, d, t), RefAbsorb(o, r))
  {}

  lemma LexByParts(a: seq<int>, b: seq<int>, c: seq<int>, d: seq<int>)
    requires |a| == |b| == |c| == |d| == 5
    requires a[0] == c[0] && a[1] == c[1] && a[2] == c[2] && a[4] == c[4]
    requires b[0] == d[0] && b[1] == d[1] && b[2] == d[2] && b[4] == d[4]
    requires (a[3] <= b[3] <==> c[3] <= d[3]) && (b[3] <= a[3] <==> d[3] <= c[3])
    ensures LexLe(a, b) <==> LexLe(c, d)
  {
    LexFive(a, b);
    LexFive(c, d);
  }

  lemma LexFive(a: seq<int>, b: seq<int>)
    requires |a| == |b| == 5
    ensures LexLe(a, b) <==>
      a[0] < b[0] || (a[0] == b[0] && (a[1] < b[1] || (a[1] == b[1] && (a[2] < b[2] || (a[2] == b[2] &&
      (a[3] < b[3] || (a[3] == b[3] && a[4] <= b[4])))))))
  {
    assert LexLe(a[4..], b[4..]) <==> a[4] <= b[4] by { assert a[4..][1..] == [] && b[4..][1..] == []; }
    assert a[3..][1..] == a[4..] && b[3..][1..] == b[4..];
    assert a[2..][1..] == a[3..] && b[2..][1..] == b[3..];
    assert a[1..][1..] == a[2..] && b[1..][1..] == b[2..];
    assert LexLe(a[3..], b[3..]) <==> a[3] < b[3] || (a[3] == b[3] && a[4] <= b[4]);
    assert LexLe(a[2..], b[2..]) <==> a[2] < b[2] || (a[2] == b[2] && LexLe(a[3..], b[3..]));
    assert LexLe(a[1..], b[1..]) <==> a[1] < b[1] || (a[1] == b[1] && LexLe(a[2..], b[2..]));
  }

  lemma RanksCompareAlike(ids: set<nat>, m: Member, d: Demand, e: Demand, t: Tally, r: RefTally)
    requires SameOrder(ids, t, r) && d.demandId in ids && e.demandId in ids
    requires DistinctCodes(m.tags) && forall t | t in m.tags :: t.assertionRef != ""
    requires NoRepeats(d.preferred) && NoRepeats(e.preferred)
    ensures var c := CaseCandidate(m);
            LexLe(Rank(m, d, t), Rank(m, e, t)) <==> LexLe(Key(c, CaseDemand(d), r), Key(c, CaseDemand(e), r))
  {
    hide LexLe, Holds, TagTable, Supported;
    SupportedIsHeld(m);
    var table, held := TagTable(m.tags), Supported(CaseCandidate(m));
    HitsIsSetSize(table, d.preferred, held);
    HitsIsSetSize(table, e.preferred, held);
    LexByParts(Rank(m, d, t), Rank(m, e, t),
               Key(CaseCandidate(m), CaseDemand(d), r), Key(CaseCandidate(m), CaseDemand(e), r));
  }

  /** Orders that compare alike have the same least positions. */
  lemma LeastAlike(ok: seq<bool>, a: seq<seq<int>>, b: seq<seq<int>>, i: int)
    requires |ok| == |a| == |b| && Least(ok, a, i)
    requires forall j, k | 0 <= j < |ok| && 0 <= k < |ok| :: LexLe(a[j], a[k]) <==> LexLe(b[j], b[k])
    ensures Least(ok, b, i)
  {
    forall j | 0 <= j < |ok| && ok[j] ensures LexLe(b[i], b[j]) && (b[i] == b[j] ==> i <= j) {
      assert LexLe(a[i], a[j]);
      if b[i] == b[j] {
        LexTotal(b[i], b[j]);
        assert LexLe(a[j], a[i]);
        LexAntisymmetric(a[i], a[j]);
      }
    }
  }

  ghost function Ids(demands: seq<Demand>): set<nat> { set d | d in demands :: d.demandId }

  ghost predicate Plain(m: Member, demands: seq<Demand>) {
    && DistinctCodes(m.tags) && m.counted == []
    && (forall t | t in m.tags :: t.assertionRef != "")
    && (forall d | d in demands :: NoRepeats(d.preferred))
  }

  /** One member: the same demand, or both wait; and the reasons differ exactly when ids are
      allowed although no demand of the snapshot carries one of them. */
  lemma DecisionsAgree(m: Member, demands: seq<Demand>, t: Tally, r: RefTally)
    requires Plain(m, demands) && SameOrder(Ids(demands), t, r)
    ensures var d := Decide(m, demands, t);
            var o := RefDecide(CaseCandidate(m), Each(CaseDemand, demands), r);
            && (d.action == Assign ==> o == Placed(m.memberId, d.demandId) && d.demandId in Ids(demands))
            && (d.action == Wait ==> o.Unplaced? && o.memberId == m.memberId)
            && (Agree(d, o) <==> AllowedIsMapped(m, demands))
  {
    hide LexLe, Feasible, IsOption, Rank, Key, InOrder, Plain, SameOrder, AllowedIsMapped, Assignment;
    var c, refs := CaseCandidate(m), Each(CaseDemand, demands);
    OptionsAlike(m, demands);
    SomeFeasible(m, demands);
    ChoiceExists(m, demands, t);
    if AnyFeasible(m, demands) {
      var i :| IsChoice(m, demands, t, i) && Decide(m, demands, t) == Assignment(m, demands[i], t);
      LeastInRange(Feasibles(m, demands), Ranks(m, demands, t), i);
      ComparesAlike(m, demands, t, r);
      LeastAlike(Feasibles(m, demands), Ranks(m, demands, t), Keys(c, refs, r), i);
      RefDecideIs(c, refs, r, true, i);
      AssignmentTo(m, demands[i], t);
      assert demands[i] in demands;
      FeasibleIsMapped(m, demands, i);
    } else {
      RefDecideIs(c, refs, r, false, 0);
      ReasonsAgree(m, demands);
    }
  }

  lemma LeastInRange(ok: seq<bool>, rank: seq<seq<int>>, i: int)
    requires |ok| == |rank| && Least(ok, rank, i)
    ensures 0 <= i < |ok| && ok[i]
  {}

  lemma AssignmentTo(m: Member, d: Demand, t: Tally)
    ensures Assignment(m, d, t).action == Assign && Assignment(m, d, t).demandId == d.demandId
    ensures Assignment(m, d, t).memberId == m.memberId
  {}

  lemma OptionsAlike(m: Member, demands: seq<Demand>)
    requires Plain(m, demands)
    ensures Feasibles(m, demands) == RefOptions(CaseCandidate(m), Each(CaseDemand, demands))
  {
    hide Feasible, IsOption;
    forall i | 0 <= i < |demands|
      ensures Feasibles(m, demands)[i] == RefOptions(CaseCandidate(m), Each(CaseDemand, demands))[i]
    {
      OptionIsFeasible(m, demands[i]);
    }
  }

  lemma ComparesAlike(m: Member, demands: seq<Demand>, t: Tally, r: RefTally)
    requires Plain(m, demands) && SameOrder(Ids(demands), t, r)
    ensures var a, b := Ranks(m, demands, t), Keys(CaseCandidate(m), Each(CaseDemand, demands), r);
            forall i, j | 0 <= i < |demands| && 0 <= j < |demands| :: LexLe(a[i], a[j]) <==> LexLe(b[i], b[j])
  {
    hide LexLe, Rank, Key, SameOrder;
    var c, refs := CaseCandidate(m), Each(CaseDemand, demands);
    forall i, j | 0 <= i < |demands| && 0 <= j < |demands|
      ensures LexLe(Ranks(m, demands, t)[i], Ranks(m, demands, t)[j]) <==> LexLe(Keys(c, refs, r)[i], Keys(c, refs, r)[j])
    {
      assert demands[i] in demands && demands[j] in demands;
      RanksCompareAlike(Ids(demands), m, demands[i], demands[j], t, r);
    }
  }

  lemma FeasibleIsMapped(m: Member, demands: seq<Demand>, i: int)
    requires 0 <= i < |demands| && Feasible(m, demands[i])
    ensures AllowedIsMapped(m, demands)
  {
    assert demands[i] in demands && demands[i].demandId in m.allowed;
  }

  lemma ReasonsAgree(m: Member, demands: seq<Demand>)
    ensures RefReason(CaseCandidate(m), Each(CaseDemand, demands)) == WaitReason(m, demands) <==> AllowedIsMapped(m, demands)
  {
    var c, refs := CaseCandidate(m), Each(CaseDemand, demands);
    if d :| d in demands && d.demandId in m.allowed {
      var i :| 0 <= i < |demands| && demands[i] == d;
      assert refs[i] in refs && IsMapped(c, refs[i]);
    }
    if e :| e in refs && IsMapped(c, e) {
      var i :| 0 <= i < |refs| && refs[i] == e;
      assert demands[i] in demands && demands[i].demandId in m.allowed;
    }
    if d :| d in demands && Open(m, d) {
      var i :| 0 <= i < |demands| && demands[i] == d;
      assert refs[i] in refs && IsReceiving(c, refs[i]);
    }
    if e :| e in refs && IsReceiving(c, e) {
      var i :| 0 <= i < |refs| && refs[i] == e;
      assert demands[i] in demands && Open(m, demands[i]);
    }
  }

  lemma {:induction false} RunsAgree(ms: seq<Member>, demands: seq<Demand>, t: Tally, r: RefTally)
    requires forall m | m in ms :: Plain(m, demands)
    requires SameOrder(Ids(demands), t, r)
    ensures var ds, os := Run(ms, demands, t).0, RefRun(Each(CaseCandidate, ms), Each(CaseDemand, demands), r);
            forall i | 0 <= i < |ms| ::
              && (ds[i].action == Assign ==> os[i] == Placed(ms[i].memberId, ds[i].demandId))
              && (ds[i].action == Wait ==> os[i].Unplaced?)
              && (Agree(ds[i], os[i]) <==> AllowedIsMapped(ms[i], demands))
  {
    hide Decide, RefDecide, SameOrder, Plain, AllowedIsMapped, Agree;
    if ms != [] {
      var c, refs := CaseCandidate(ms[0]), Each(CaseDemand, demands);
      DecisionsAgree(ms[0], demands, t, r);
      var d, o := Decide(ms[0], demands, t), RefDecide(c, refs, r);
      PlainUncounted(ms[0], demands);
      SameOrderKept(Ids(demands), ms[0], d, t, o, r);
      var t1, r1 := Absorb(ms[0], d, t), RefAbsorb(o, r);
      RunsAgree(ms[1..], demands, t1, r1);
      assert Each(CaseCandidate, ms)[1..] == Each(CaseCandidate, ms[1..]);
    }
  }

  lemma PlainUncounted(m: Member, demands: seq<Demand>)
    requires Plain(m, demands)
    ensures m.counted == []
  {}

  lemma {:induction false} MaxLastBounds(ds: seq<Demand>)
    ensures forall d | d in ds :: d.lastSequence <= MaxLast(Each(CaseDemand, ds))
  {
    var refs := Each(CaseDemand, ds);
    if |ds| > 1 {
      var n := |ds| - 1;
      assert refs[..n] == Each(CaseDemand, ds[..n]);
      MaxLastBounds(ds[..n]);
      assert ds == ds[..n] + [ds[n]];
    }
  }

  lemma {:induction false} OpeningsSame(ds: seq<Demand>)
    ensures RefSupply(Each(CaseDemand, ds)) == SupplyOf(ds) && RefLast(Each(CaseDemand, ds)) == LastOf(ds)
  {
    if ds != [] {
      var n := |ds| - 1;
      assert Each(CaseDemand, ds)[..n] == Each(CaseDemand, ds[..n]);
      OpeningsSame(ds[..n]);
    }
  }

  lemma OpeningSameOrder(s: Snapshot)
    requires Comparable(s)
    ensures SameOrder(Ids(s.demands), Opening(s), RefOpening(Each(CaseDemand, s.demands)))
  {
    hide SupplyOf, LastOf, RefSupply, RefLast, MaxLast;
    OpeningsSame(s.demands);
    MaxLastBounds(s.demands);
    OpeningEntries(s.demands);
    var t, r := Opening(s), RefOpening(Each(CaseDemand, s.demands));
    forall c | c in Ids(s.demands) ensures At(t.last, c) < t.sequence && At(r.sequence, c) < r.next {
      var d :| d in s.demands && d.demandId == c;
    }
  }

  /** The refinement: on comparable snapshots every member gets the reference's demand, or waits
      as in the reference; and with the reference's own reason if and only if its allowed ids, when
      there are any, include a demand of the snapshot. */
  lemma PlanRefinesReference(s: Snapshot)
    requires Comparable(s)
    ensures var ms, plan, ref := SortBy(Earlier, s.members), Plan(s), Reference(CaseOf(s));
            && |plan| == |ref| == |ms|
            && forall i | 0 <= i < |plan| ::
                 && (plan[i].action == Assign ==> ref[i] == Placed(plan[i].memberId, plan[i].demandId))
                 && (plan[i].action == Wait ==> ref[i].Unplaced?)
                 && (Agree(plan[i], ref[i]) <==> AllowedIsMapped(ms[i], s.demands))
  {
    hide SortBy, SupplyOf, LastOf, RefSupply, RefLast, Decide, RefDecide, SameOrder, AllowedIsMapped, Agree, MaxLast, Earlier, RefEarlier;
    var ms := SortBy(Earlier, s.members);
    SameElements(ms, s.members);
    assert forall m | m in ms :: Plain(m, s.demands);
    ArrivalsAlike();
    SortByCommutes(Earlier, RefEarlier, CaseCandidate, s.members);
    OpeningSameOrder(s);
    RunsAgree(ms, s.demands, Opening(s), RefOpening(Each(CaseDemand, s.demands)));
    RunKeepsMembers(ms, s.demands, Opening(s));
  }

  /** In a snapshot the engine builds, every member is allowed exactly the demands of the snapshot. */
  lemma BuiltIsMapped(db: Store.Db, tk: Store.Ticket, at: nat, revision: nat, m: Member)
    requires Store.Buildable(db, tk) && m in Store.Build(db, tk, at, revision).members
    ensures AllowedIsMapped(m, Store.Build(db, tk, at, revision).demands)
  {
    hide Store.Valid;
    var rows, demands := db.demands[tk.scope], Store.Build(db, tk, at, revision).demands;
    Store.SnapshotMembersListed(db, tk.scope, at, tk.members, |db.members|);
    assert m.allowed == Store.Each2(rows);
    if rows != [] {
      assert demands[0] in demands && demands[0].demandId == rows[0].demandId;
      assert m.allowed[0] in m.allowed;
    }
  }

  /** Hence on every comparable snapshot the engine builds, the plan and the reference agree on every
      member: the same demand, or waiting for the same reason. */
  lemma BuiltPlanAgrees(db: Store.Db, tk: Store.Ticket, at: nat, revision: nat)
    requires Store.Buildable(db, tk) && Comparable(Store.Build(db, tk, at, revision))
    ensures var s := Store.Build(db, tk, at, revision);
            && |Plan(s)| == |Reference(CaseOf(s))| == |s.members|
            && forall i | 0 <= i < |Plan(s)| :: Agree(Plan(s)[i], Reference(CaseOf(s))[i])
  {
    hide Store.Build, Store.Buildable, Plan, Reference, Agree, AllowedIsMapped, Comparable, SortBy;
    var s := Store.Build(db, tk, at, revision);
    PlanRefinesReference(s);
    var ms := SortBy(Earlier, s.members);
    SameElements(ms, s.members);
    forall i | 0 <= i < |Plan(s)| ensures Agree(Plan(s)[i], Reference(CaseOf(s))[i]) {
      assert ms[i] in ms;
      BuiltIsMapped(db, tk, at, revision, ms[i]);
    }
  }

  lemma ArrivalsAlike()
    ensures forall a, b :: RefEarlier(CaseCandidate(a), CaseCandidate(b)) == Earlier(a, b)
  {
    forall a, b ensures RefEarlier(CaseCandidate(a), CaseCandidate(b)) == Earlier(a, b) {
      assert RefArrival(CaseCandidate(a)) == Arrival(a) && RefArrival(CaseCandidate(b)) == Arrival(b);
    }
  }

  lemma {:induction false} RunKeepsMembers(ms: seq<Member>, demands: seq<Demand>, t: Tally)
    ensures var ds := Run(ms, demands, t).0;
            forall i | 0 <= i < |ms| ::
              ds[i].memberId == ms[i].memberId && ds[i].qualificationRef == ms[i].qualificationRef
  {
    hide Absorb, Decide;
    if ms != [] {
      RunKeepsMembers(ms[1..], demands, Absorb(ms[0], Decide(ms[0], demands, t), t));
    }
  }
}
