/** The canonical form hashed by the platform. SHA-256 is taken to be injective, so the hash of a
    snapshot is represented by its canonical form. The form forgets every transport order and is
    shown to determine the plan. */
module AllocationCanonical {
  import opened Orders
  import opened AllocationTypes
  import opened AllocationPolicy

  function MemberKey(m: Member): seq<int> { [m.memberId] }
  function DemandKey(d: Demand): seq<int> { [d.demandId] }

  predicate ById(a: Member, b: Member) { LexLe(MemberKey(a), MemberKey(b)) }
  predicate ByDemandId(a: Demand, b: Demand) { LexLe(DemandKey(a), DemandKey(b)) }
  predicate ByCode(a: Tag, b: Tag) { StringLe(a.code, b.code) }
  predicate IntLe(a: int, b: int) { a <= b }

  function CanonMember(m: Member): Member {
    m.(tags := SortBy(ByCode, m.tags), counted := SortBy(IntLe, m.counted), allowed := SortBy(IntLe, m.allowed))
  }

  function CanonDemand(d: Demand): Demand {
    d.(required := SortBy(StringLe, d.required), preferred := SortBy(StringLe, d.preferred))
  }

  function Each<T, U>(f: T -> U, xs: seq<T>): (r: seq<U>)
    ensures |r| == |xs| && forall i | 0 <= i < |xs| :: r[i] == f(xs[i])
  {
    seq(|xs|, i requires 0 <= i < |xs| => f(xs[i]))
  }

  function Canonical(s: Snapshot): Snapshot {
    s.(members := Each(CanonMember, SortBy(ById, s.members)),
       demands := Each(CanonDemand, SortBy(ByDemandId, s.demands)))
  }

  /** The program's in-place sorting of a copy. */
  method SnapshotHash(s: Snapshot) returns (key: Snapshot)
    ensures key == Canonical(s)
  {
    hide SortBy;
    var members := SortBy(ById, s.members);
    var demands := SortBy(ByDemandId, s.demands);
    ghost var ms, ds := members, demands;
    for i := 0 to |members|
      invariant |members| == |ms|
      invariant forall k | 0 <= k < |ms| :: members[k] == if k < i then CanonMember(ms[k]) else ms[k]
    {
      var m := members[i];
      m := m.(tags := SortBy(ByCode, m.tags));
      m := m.(counted := SortBy(IntLe, m.counted));
      m := m.(allowed := SortBy(IntLe, m.allowed));
      members := members[i := m];
    }
    for i := 0 to |demands|
      invariant |demands| == |ds|
      invariant forall k | 0 <= k < |ds| :: demands[k] == if k < i then CanonDemand(ds[k]) else ds[k]
    {
      var d := demands[i];
      d := d.(required := SortBy(StringLe, d.required));
      d := d.(preferred := SortBy(StringLe, d.preferred));
      demands := demands[i := d];
    }
    assert members == Each(CanonMember, ms) && demands == Each(CanonDemand, ds);
    key := s.(members := members, demands := demands);
  }

  // ----- the orders used -----

  lemma MemberOrders()
    ensures TotalPreorder(ById) && TotalPreorder(Earlier)
  {
    KeyOrder(MemberKey, ById);
    KeyOrder(Arrival, Earlier);
  }

  lemma DemandOrder()
    ensures TotalPreorder(ByDemandId)
  {
    KeyOrder(DemandKey, ByDemandId);
  }

  lemma TagOrder()
    ensures TotalPreorder(ByCode)
  {
    StringOrder();
    assert forall a: Tag, b: Tag :: ByCode(a, b) <==> StringLe(a.code, b.code);
  }

  lemma MembersSeparated(members: seq<Member>)
    requires DistinctMembers(members)
    ensures Separates(ById, members) && Separates(Earlier, members)
  {
    forall x, y | x in members && y in members && (ById(x, y) && ById(y, x)) ensures x == y {
      LexAntisymmetric(MemberKey(x), MemberKey(y));
    }
    forall x, y | x in members && y in members && (Earlier(x, y) && Earlier(y, x)) ensures x == y {
      LexAntisymmetric(Arrival(x), Arrival(y));
      assert Arrival(x)[1] == Arrival(y)[1];
    }
  }

  lemma DemandsSeparated(demands: seq<Demand>)
    requires DistinctDemands(demands)
    ensures Separates(ByDemandId, demands)
  {
    forall x, y | x in demands && y in demands && (ByDemandId(x, y) && ByDemandId(y, x)) ensures x == y {
      LexAntisymmetric(DemandKey(x), DemandKey(y));
    }
  }

  lemma TagsSeparated(tags: seq<Tag>)
    requires DistinctCodes(tags)
    ensures Separates(ByCode, tags)
  {
    StringOrder();
    forall x, y | x in tags && y in tags && (ByCode(x, y) && ByCode(y, x)) ensures x == y {
      var codes := [x.code, y.code];
      assert Separates(StringLe, codes);
      assert codes[0] in codes && codes[1] in codes;
    }
  }

  // ----- what a rearrangement keeps -----

  lemma {:induction false} HitsAppend(table: map<string, string>, xs: seq<string>, ys: seq<string>)
    ensures Hits(table, xs + ys) == Hits(table, xs) + Hits(table, ys)
  {
    if ys == [] {
      assert xs + ys == xs;
    } else {
      var n := |ys| - 1;
      HitsAppend(table, xs, ys[..n]);
      assert (xs + ys)[..|xs + ys| - 1] == xs + ys[..n];
    }
  }

  lemma HitsWithout(table: map<string, string>, ys: seq<string>, j: nat)
    requires j < |ys|
    ensures Hits(table, ys) == Hits(table, ys[..j] + ys[j + 1..]) + (if Holds(table, ys[j]) then 1 else 0)
  {
    hide Hits, Holds;
    var before, after := ys[..j], ys[j + 1..];
    HitsAppend(table, before + [ys[j]], after);
    HitsAppend(table, before, [ys[j]]);
    HitsAppend(table, before, after);
    HitsOne(table, ys[j]);
    assert ys == (before + [ys[j]]) + after;
  }

  lemma HitsOne(table: map<string, string>, c: string)
    ensures Hits(table, [c]) == if Holds(table, c) then 1 else 0
  {
    assert [c][..0] == [];
  }

  lemma Without<T>(ys: seq<T>, j: nat)
    requires j < |ys|
    ensures multiset(ys[..j] + ys[j + 1..]) == multiset(ys) - multiset{ys[j]}
  {
    assert ys == ys[..j] + [ys[j]] + ys[j + 1..];
  }

  lemma {:induction false} HitsRearranged(table: map<string, string>, xs: seq<string>, ys: seq<string>)
    requires multiset(xs) == multiset(ys)
    ensures Hits(table, xs) == Hits(table, ys)
    decreases |xs|
  {
    assert |xs| == |multiset(xs)| && |ys| == |multiset(ys)|;
    if xs != [] {
      var n := |xs| - 1;
      SameElements(xs, ys);
      assert xs[n] in xs;
      var j :| 0 <= j < |ys| && ys[j] == xs[n];
      Without(xs, n);
      Without(ys, j);
      HitsWithout(table, xs, n);
      HitsWithout(table, ys, j);
      HitsRearranged(table, xs[..n] + xs[n + 1..], ys[..j] + ys[j + 1..]);
    }
  }

  /** With distinct codes the table is read off the set of usable tags. */
  lemma {:induction false} TagTableEntries(tags: seq<Tag>)
    requires DistinctCodes(tags)
    ensures forall c :: c in TagTable(tags) <==> exists t :: t in tags && Usable(t) && t.code == c
    ensures forall t | t in tags && Usable(t) :: t.code in TagTable(tags) && TagTable(tags)[t.code] == t.assertionRef
  {
    if tags != [] {
      var n := |tags| - 1;
      var rest := tags[..n];
      TagTableEntries(rest);
      assert tags == rest + [tags[n]];
      forall t | t in rest ensures t.code != tags[n].code {
        var i :| 0 <= i < n && rest[i] == t;
        assert tags[i] == t;
      }
    }
  }

  lemma TagTableRearranged(xs: seq<Tag>, ys: seq<Tag>)
    requires DistinctCodes(xs) && DistinctCodes(ys) && multiset(xs) == multiset(ys)
    ensures TagTable(xs) == TagTable(ys)
  {
    TagTableEntries(xs);
    TagTableEntries(ys);
    SameElements(xs, ys);
    var a, b := TagTable(xs), TagTable(ys);
    forall c ensures c in a <==> c in b {}
    forall c | c in a ensures a[c] == b[c] {
      var t :| t in xs && Usable(t) && t.code == c;
      assert t in ys;
    }
  }

  lemma DistinctSurvives(tags: seq<Tag>)
    requires DistinctCodes(tags)
    ensures DistinctCodes(SortBy(ByCode, tags))
  {
    var r := SortBy(ByCode, tags);
    forall i, j | 0 <= i < j < |r| ensures r[i].code != r[j].code {
      if r[i].code == r[j].code {
        TwicePresent(r, i, j);
        SameElements(r, tags);
        assert r[i] in tags && r[j] in tags;
        var k :| 0 <= k < |tags| && tags[k] == r[i];
        var l :| 0 <= l < |tags| && tags[l] == r[j];
        assert k == l;
        OncePresent(tags, k);
      }
    }
  }

  lemma TwicePresent<T>(xs: seq<T>, i: int, j: int)
    requires 0 <= i < j < |xs|
    ensures xs[i] == xs[j] ==> multiset(xs)[xs[i]] >= 2
  {
    assert xs == xs[..i] + [xs[i]] + xs[i + 1..j] + [xs[j]] + xs[j + 1..];
  }

  lemma OncePresent<T>(xs: seq<T>, k: int)
    requires 0 <= k < |xs| && forall i | 0 <= i < |xs| && i != k :: xs[i] != xs[k]
    ensures multiset(xs)[xs[k]] == 1
  {
    assert xs == xs[..k] + [xs[k]] + xs[k + 1..];
    assert xs[k] !in xs[..k] && xs[k] !in xs[k + 1..];
    assert multiset(xs[..k])[xs[k]] == 0 && multiset(xs[k + 1..])[xs[k]] == 0;
  }

  /** Two presentations of one member: same facts, lists in any order. */
  ghost predicate SameMember(a: Member, b: Member) {
    && a == b.(tags := a.tags, allowed := a.allowed, counted := a.counted)
    && multiset(a.tags) == multiset(b.tags) && multiset(a.allowed) == multiset(b.allowed)
    && multiset(a.counted) == multiset(b.counted)
    && DistinctCodes(a.tags) && DistinctCodes(b.tags)
  }

  ghost predicate SameDemand(a: Demand, b: Demand) {
    && a == b.(required := a.required, preferred := a.preferred)
    && multiset(a.required) == multiset(b.required) && multiset(a.preferred) == multiset(b.preferred)
  }

  lemma EligibilityRearranged(a: Member, b: Member, d: Demand, e: Demand, t: Tally)
    requires SameMember(a, b) && SameDemand(d, e)
    ensures Open(a, d) == Open(b, e) && Feasible(a, d) == Feasible(b, e)
    ensures Rank(a, d, t) == Rank(b, e, t)
    ensures Assignment(a, d, t) == Assignment(b, e, t)
  {
    hide InOrder, LexLe;
    TagTableRearranged(a.tags, b.tags);
    SameElements(a.allowed, b.allowed);
    SameElements(d.required, e.required);
    SameElements(d.preferred, e.preferred);
    var table := TagTable(a.tags);
    HitsRearranged(table, d.preferred, e.preferred);
    assert (forall c | c in d.required :: Holds(table, c)) <==> (forall c | c in e.required :: Holds(table, c));
    assert Matched(table, d) == Matched(table, e);
  }

  ghost predicate HasTwin(d: Demand, es: seq<Demand>) { exists e :: e in es && SameDemand(d, e) }

  lemma Twin(d: Demand, es: seq<Demand>) returns (k: nat)
    requires HasTwin(d, es)
    ensures k < |es| && SameDemand(d, es[k]) && SameDemand(es[k], d)
  {
    var e :| e in es && SameDemand(d, e);
    k :| 0 <= k < |es| && es[k] == e;
  }

  /** Same demands up to order and to the order of their tag lists. */
  ghost predicate SameDemands(ds: seq<Demand>, es: seq<Demand>) {
    && (forall d | d in ds :: HasTwin(d, es))
    && (forall e | e in es :: HasTwin(e, ds))
  }

  lemma RankHasId(m: Member, d: Demand, e: Demand, t: Tally)
    ensures Rank(m, d, t) == Rank(m, e, t) ==> d.demandId == e.demandId
  {
    if Rank(m, d, t) == Rank(m, e, t) {
      assert Rank(m, d, t)[4] == Rank(m, e, t)[4];
    }
  }

  /** The choice among one presentation is, up to presentation, the choice among the other. */
  lemma ChoiceRearranged(a: Member, b: Member, ds: seq<Demand>, es: seq<Demand>, t: Tally, i: int) returns (k: int)
    requires SameMember(a, b) && SameDemands(ds, es) && DistinctDemands(es)
    requires IsChoice(a, ds, t, i)
    ensures IsChoice(b, es, t, k) && SameDemand(ds[i], es[k])
  {
    hide InOrder, Feasible, Open, Rank, LexLe, SameMember, SameDemand, HasTwin;
    assert ds[i] in ds;
    k := Twin(ds[i], es);
    EligibilityRearranged(a, b, ds[i], es[k], t);
    forall j | 0 <= j < |es| && Feasible(b, es[j])
      ensures LexLe(Rank(b, es[k], t), Rank(b, es[j], t)) && (Rank(b, es[k], t) == Rank(b, es[j], t) ==> k <= j)
    {
      assert es[j] in es;
      var l := Twin(es[j], ds);
      EligibilityRearranged(a, b, ds[l], es[j], t);
      assert Feasibles(a, ds)[l];
      assert LexLe(Ranks(a, ds, t)[i], Ranks(a, ds, t)[l]);
      RankHasId(b, es[k], es[j], t);
    }
  }

  lemma FeasibleRearranged(a: Member, b: Member, ds: seq<Demand>, es: seq<Demand>, t: Tally)
    requires SameMember(a, b) && SameDemands(ds, es)
    ensures AnyFeasible(a, ds) == AnyFeasible(b, es)
    ensures WaitReason(a, ds) == WaitReason(b, es)
  {
    hide InOrder, Feasible, Open, Rank, LexLe, SameDemand, HasTwin;
    if d :| d in ds && Feasible(a, d) {
      var k := Twin(d, es);
      EligibilityRearranged(a, b, d, es[k], t);
      assert es[k] in es;
    }
    if e :| e in es && Feasible(b, e) {
      var k := Twin(e, ds);
      EligibilityRearranged(a, b, ds[k], e, t);
      assert ds[k] in ds;
    }
    if d :| d in ds && Open(a, d) {
      var k := Twin(d, es);
      EligibilityRearranged(a, b, d, es[k], t);
      assert es[k] in es;
    }
    if e :| e in es && Open(b, e) {
      var k := Twin(e, ds);
      EligibilityRearranged(a, b, ds[k], e, t);
      assert ds[k] in ds;
    }
    assert |a.allowed| == |multiset(a.allowed)| && |b.allowed| == |multiset(b.allowed)|;
  }

  lemma DecideRearranged(a: Member, b: Member, ds: seq<Demand>, es: seq<Demand>, t: Tally)
    requires SameMember(a, b) && SameDemands(ds, es)
    requires DistinctDemands(ds) && DistinctDemands(es)
    ensures Decide(a, ds, t) == Decide(b, es, t)
  {
    hide InOrder, Feasible, Open, Rank, LexLe, HasTwin, SameDemand;
    FeasibleRearranged(a, b, ds, es, t);
    ChoiceExists(a, ds, t);
    ChoiceExists(b, es, t);
    if AnyFeasible(a, ds) {
      var i :| IsChoice(a, ds, t, i) && Decide(a, ds, t) == Assignment(a, ds[i], t);
      var k := ChoiceRearranged(a, b, ds, es, t, i);
      EligibilityRearranged(a, b, ds[i], es[k], t);
      var c :| IsChoice(b, es, t, c) && Decide(b, es, t) == Assignment(b, es[c], t);
      LeastUnique(Feasibles(b, es), Ranks(b, es, t), k, c);
    }
  }

  ghost predicate SameMembers(xs: seq<Member>, ys: seq<Member>) {
    |xs| == |ys| && forall i | 0 <= i < |xs| :: SameMember(xs[i], ys[i])
  }

  lemma {:induction false} RunRearranged(xs: seq<Member>, ys: seq<Member>, ds: seq<Demand>, es: seq<Demand>, t: Tally)
    requires SameMembers(xs, ys) && SameDemands(ds, es)
    requires DistinctDemands(ds) && DistinctDemands(es)
    ensures Run(xs, ds, t) == Run(ys, es, t)
  {
    hide Decide, SameDemands;
    if xs != [] {
      DecideRearranged(xs[0], ys[0], ds, es, t);
      var d := Decide(xs[0], ds, t);
      SameElements(xs[0].counted, ys[0].counted);
      assert Absorb(xs[0], d, t) == Absorb(ys[0], d, t);
      RunRearranged(xs[1..], ys[1..], ds, es, Absorb(xs[0], d, t));
    }
  }

  ghost predicate Lists(m: map<int, int>, ds: seq<Demand>) { forall k :: k in m <==> exists d :: d in ds && d.demandId == k }

  /** The maps hold the quantities of exactly these demands. */
  ghost predicate Entered(supply: map<int, int>, last: map<int, int>, ds: seq<Demand>) {
    && supply.Keys == last.Keys && Lists(supply, ds)
    && (forall d | d in ds :: d.demandId in supply && supply[d.demandId] == d.recentSupply)
    && (forall d | d in ds :: d.demandId in last && last[d.demandId] == d.lastSequence)
  }

  lemma {:induction false} OpeningEntries(ds: seq<Demand>)
    requires DistinctDemands(ds)
    ensures Entered(SupplyOf(ds), LastOf(ds), ds)
  {
    hide SupplyOf, LastOf, Entered;
    if ds == [] {
      NothingEntered(ds);
    } else {
      var n := |ds| - 1;
      DistinctSnoc(ds);
      OpeningEntries(ds[..n]);
      OpeningSnoc(ds);
      EntriesSnoc(ds[..n], ds[n], SupplyOf(ds[..n]), LastOf(ds[..n]));
      assert ds == ds[..n] + [ds[n]];
    }
  }

  lemma NothingEntered(ds: seq<Demand>)
    requires ds == []
    ensures Entered(SupplyOf(ds), LastOf(ds), ds)
  {}

  lemma OpeningSnoc(ds: seq<Demand>)
    requires ds != []
    ensures var n := |ds| - 1;
            && SupplyOf(ds) == SupplyOf(ds[..n])[ds[n].demandId := ds[n].recentSupply]
            && LastOf(ds) == LastOf(ds[..n])[ds[n].demandId := ds[n].lastSequence]
  {}

  lemma DistinctSnoc(ds: seq<Demand>)
    requires ds != [] && DistinctDemands(ds)
    ensures DistinctDemands(ds[..|ds| - 1]) && forall d | d in ds[..|ds| - 1] :: d.demandId != ds[|ds| - 1].demandId
  {
    forall d | d in ds[..|ds| - 1] ensures d.demandId != ds[|ds| - 1].demandId {
      var i :| 0 <= i < |ds| - 1 && ds[..|ds| - 1][i] == d;
      assert ds[i] == d;
    }
  }

  lemma EntriesSnoc(rest: seq<Demand>, e: Demand, supply: map<int, int>, last: map<int, int>)
    requires Entered(supply, last, rest) && forall d | d in rest :: d.demandId != e.demandId
    ensures Entered(supply[e.demandId := e.recentSupply], last[e.demandId := e.lastSequence], rest + [e])
  {
    var ds, m := rest + [e], supply[e.demandId := e.recentSupply];
    assert forall d :: d in ds <==> d in rest || d == e;
    forall k ensures k in m <==> exists d :: d in ds && d.demandId == k {
      if k in supply {
        var d :| d in rest && d.demandId == k;
        assert d in ds;
      }
      if k == e.demandId {
        assert e in ds;
      }
    }
  }

  lemma OpeningRearranged(ds: seq<Demand>, es: seq<Demand>)
    requires SameDemands(ds, es) && DistinctDemands(ds) && DistinctDemands(es)
    ensures SupplyOf(ds) == SupplyOf(es) && LastOf(ds) == LastOf(es)
  {
    hide SupplyOf, LastOf, HasTwin;
    OpeningEntries(ds);
    OpeningEntries(es);
    forall k ensures k in SupplyOf(ds) <==> k in SupplyOf(es) {
      if k in SupplyOf(ds) {
        var d :| d in ds && d.demandId == k;
        var l := Twin(d, es);
        assert es[l] in es;
      }
      if k in SupplyOf(es) {
        var e :| e in es && e.demandId == k;
        var l := Twin(e, ds);
        assert ds[l] in ds;
      }
    }
    forall k | k in SupplyOf(ds) ensures SupplyOf(ds)[k] == SupplyOf(es)[k] && LastOf(ds)[k] == LastOf(es)[k] {
      var d :| d in ds && d.demandId == k;
      var l := Twin(d, es);
      assert es[l] in es;
    }
  }

  // ----- the canonical form presents the same facts -----

  lemma {:induction false} SortByCommutes<T, U>(le: (T, T) -> bool, le2: (U, U) -> bool, f: T -> U, xs: seq<T>)
    requires forall x, y :: le2(f(x), f(y)) == le(x, y)
    ensures SortBy(le2, Each(f, xs)) == Each(f, SortBy(le, xs))
  {
    if xs != [] {
      assert Each(f, xs)[1..] == Each(f, xs[1..]);
      SortByCommutes(le, le2, f, xs[1..]);
      InsertCommutes(le, le2, f, xs[0], SortBy(le, xs[1..]));
    }
  }

  lemma {:induction false} InsertCommutes<T, U>(le: (T, T) -> bool, le2: (U, U) -> bool, f: T -> U, x: T, xs: seq<T>)
    requires forall x, y :: le2(f(x), f(y)) == le(x, y)
    ensures Insert(le2, f(x), Each(f, xs)) == Each(f, Insert(le, x, xs))
  {
    hide Each;
    EachCons(f, x, xs);
    if xs == [] {
      assert [x] + xs == [x];
    } else {
      assert xs == [xs[0]] + xs[1..];
      EachCons(f, xs[0], xs[1..]);
      assert Each(f, xs)[0] == f(xs[0]) && Each(f, xs)[1..] == Each(f, xs[1..]);
      assert le2(f(x), f(xs[0])) == le(x, xs[0]);
      if !le(x, xs[0]) {
        InsertCommutes(le, le2, f, x, xs[1..]);
        EachCons(f, xs[0], Insert(le, x, xs[1..]));
      }
    }
  }

  lemma EachCons<T, U>(f: T -> U, x: T, xs: seq<T>)
    ensures Each(f, [x] + xs) == [f(x)] + Each(f, xs)
  {}

  lemma CanonicalMemberSame(m: Member)
    requires DistinctCodes(m.tags)
    ensures SameMember(CanonMember(m), m)
  {
    DistinctSurvives(m.tags);
  }

  lemma DemandsStayDistinct(ds: seq<Demand>, es: seq<Demand>)
    requires DistinctDemands(ds) && multiset(ds) == multiset(es)
    ensures DistinctDemands(es)
  {
    SameElements(ds, es);
    forall i, j | 0 <= i < j < |es| ensures es[i].demandId != es[j].demandId {
      assert es[i] in ds && es[j] in ds;
      var k :| 0 <= k < |ds| && ds[k] == es[i];
      var l :| 0 <= l < |ds| && ds[l] == es[j];
      TwicePresent(es, i, j);
      OncePresent(ds, k);
    }
  }

  lemma CanonicalDemandsSame(ds: seq<Demand>)
    requires DistinctDemands(ds)
    ensures SameDemands(Each(CanonDemand, SortBy(ByDemandId, ds)), ds)
    ensures DistinctDemands(Each(CanonDemand, SortBy(ByDemandId, ds)))
  {
    hide SortBy;
    var sorted := SortBy(ByDemandId, ds);
    var canon := Each(CanonDemand, sorted);
    SameElements(sorted, ds);
    DemandsStayDistinct(ds, sorted);
    forall c | c in canon ensures HasTwin(c, ds) {
      var i :| 0 <= i < |canon| && canon[i] == c;
      assert sorted[i] in sorted && SameDemand(c, sorted[i]);
    }
    forall d | d in ds ensures HasTwin(d, canon) {
      var i :| 0 <= i < |sorted| && sorted[i] == d;
      assert canon[i] in canon && SameDemand(d, canon[i]);
    }
  }

  lemma SortedCanonicalMembers(members: seq<Member>)
    requires DistinctMembers(members)
    ensures SortBy(Earlier, Each(CanonMember, SortBy(ById, members)))
            == Each(CanonMember, SortBy(Earlier, members))
  {
    MemberOrders();
    MembersSeparated(members);
    SortByCommutes(Earlier, Earlier, CanonMember, SortBy(ById, members));
    SortByCongruent(Earlier, members, SortBy(ById, members));
  }

  /** Hashing loses nothing the allocator looks at. */
  lemma CanonicalKeepsPlan(s: Snapshot)
    requires WellKeyed(s)
    ensures Outcome(Canonical(s)) == Outcome(s)
  {
    hide Run, SortBy, SupplyOf, LastOf;
    var c := Canonical(s);
    var sorted := SortBy(Earlier, s.members);
    SortedCanonicalMembers(s.members);
    CanonicalDemandsSame(s.demands);
    SameElements(sorted, s.members);
    forall i | 0 <= i < |sorted| ensures SameMember(Each(CanonMember, sorted)[i], sorted[i]) {
      assert sorted[i] in s.members;
      CanonicalMemberSame(sorted[i]);
    }
    OpeningRearranged(c.demands, s.demands);
    RunRearranged(Each(CanonMember, sorted), sorted, c.demands, s.demands, Opening(s));
  }

  /** Equal hashes imply identical decisions, in every field. */
  lemma HashDeterminesPlan(s: Snapshot, other: Snapshot)
    requires WellKeyed(s) && WellKeyed(other)
    requires Canonical(s) == Canonical(other)
    ensures Plan(s) == Plan(other)
  {
    CanonicalKeepsPlan(s);
    CanonicalKeepsPlan(other);
  }

  /** Permuting members and demands changes neither the hash nor the plan. */
  lemma TransportOrderIrrelevant(s: Snapshot, members: seq<Member>, demands: seq<Demand>)
    requires WellKeyed(s) && WellKeyed(s.(members := members, demands := demands))
    requires multiset(members) == multiset(s.members) && multiset(demands) == multiset(s.demands)
    ensures Canonical(s.(members := members, demands := demands)) == Canonical(s)
    ensures Plan(s.(members := members, demands := demands)) == Plan(s)
  {
    MemberOrders();
    DemandOrder();
    MembersSeparated(s.members);
    DemandsSeparated(s.demands);
    SortByCongruent(ById, s.members, members);
    SortByCongruent(ByDemandId, s.demands, demands);
    HashDeterminesPlan(s, s.(members := members, demands := demands));
  }

  /** Nor does permuting tags, id lists or tag lists inside the records. */
  lemma ListOrderIrrelevant(s: Snapshot, other: Snapshot)
    requires WellKeyed(s) && WellKeyed(other)
    requires other == s.(members := other.members, demands := other.demands)
    requires SameMembers(s.members, other.members)
    requires |s.demands| == |other.demands|
    requires forall i | 0 <= i < |s.demands| :: SameDemand(s.demands[i], other.demands[i])
    ensures Canonical(s) == Canonical(other)
    ensures Plan(s) == Plan(other)
  {
    forall i | 0 <= i < |s.members| ensures CanonMember(s.members[i]) == CanonMember(other.members[i]) {
      var a, b := s.members[i], other.members[i];
      assert SameMember(a, b);
      TagOrder();
      TagsSeparated(a.tags);
      SortByCongruent(ByCode, a.tags, b.tags);
      assert TotalPreorder(IntLe) && Separates(IntLe, a.counted) && Separates(IntLe, a.allowed);
      SortByCongruent(IntLe, a.counted, b.counted);
      SortByCongruent(IntLe, a.allowed, b.allowed);
    }
    forall i | 0 <= i < |s.demands| ensures CanonDemand(s.demands[i]) == CanonDemand(other.demands[i]) {
      StringOrder();
      assert SameDemand(s.demands[i], other.demands[i]);
      SortByCongruent(StringLe, s.demands[i].required, other.demands[i].required);
      SortByCongruent(StringLe, s.demands[i].preferred, other.demands[i].preferred);
    }
    assert Each(CanonMember, s.members) == Each(CanonMember, other.members);
    assert Each(CanonDemand, s.demands) == Each(CanonDemand, other.demands);
    SortByCommutes(ById, ById, CanonMember, s.members);
    SortByCommutes(ById, ById, CanonMember, other.members);
    SortByCommutes(ByDemandId, ByDemandId, CanonDemand, s.demands);
    SortByCommutes(ByDemandId, ByDemandId, CanonDemand, other.demands);
    HashDeterminesPlan(s, other);
  }
}
