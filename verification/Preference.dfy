/** Which volunteer is assessed next: the frozen wishes in preference order, and what repeated AI
    rejections make of them. */
module Preference {
  import opened Orders
  import opened AllocationCanonical
  import opened AllocationStore

  /** A wish of the frozen snapshot. References to resumes are one-to-one, so the wish is named by its
      resume. */
  datatype Volunteer = Volunteer(wish: nat, entity: string, applyDate: string, rejected: bool)

  // ----- preference order -----

  predicate Preferred(v: Volunteer, entity: string) { entity != "" && v.entity == entity }

  function DateOf(v: Volunteer): string { if v.applyDate == "" then "9999-12-31" else v.applyDate }

  /** Wishes for the preferred entity first, then by application date; undated wishes last. */
  predicate NotAfter(entity: string, a: Volunteer, b: Volunteer) {
    if Preferred(a, entity) != Preferred(b, entity) then Preferred(a, entity) else StringLe(DateOf(a), DateOf(b))
  }

  function ByPreference(entity: string): (Volunteer, Volunteer) -> bool { (a: Volunteer, b: Volunteer) => NotAfter(entity, a, b) }

  function Ordered(vs: seq<Volunteer>, entity: string): (r: seq<Volunteer>)
    ensures multiset(r) == multiset(vs) && |r| == |vs|
  {
    SortBy(ByPreference(entity), vs)
  }

  lemma PreferenceIsOrder(entity: string)
    ensures TotalPreorder(ByPreference(entity))
  {
    var le := ByPreference(entity);
    StringOrder();
    forall a, b ensures le(a, b) || le(b, a) {
      assert StringLe(DateOf(a), DateOf(b)) || StringLe(DateOf(b), DateOf(a));
    }
    forall a, b, c | le(a, b) && le(b, c) ensures le(a, c) {
      assert StringLe(DateOf(a), DateOf(b)) && StringLe(DateOf(b), DateOf(c)) ==> StringLe(DateOf(a), DateOf(c));
    }
  }

  /** The elements tied with x. */
  function TiedWith<T>(le: (T, T) -> bool, x: T, xs: seq<T>): seq<T> {
    if xs == [] then [] else Tie(le, x, xs[0]) + TiedWith(le, x, xs[1..])
  }

  function Tie<T>(le: (T, T) -> bool, x: T, y: T): seq<T> { if le(x, y) && le(y, x) then [y] else [] }

  lemma TiedCons<T>(le: (T, T) -> bool, x: T, y: T, rest: seq<T>)
    ensures TiedWith(le, x, [y] + rest) == Tie(le, x, y) + TiedWith(le, x, rest)
  {
    assert ([y] + rest)[1..] == rest;
  }

  /** Two elements that are not tied with each other are not both tied with x. */
  lemma OneTie<T(!new)>(le: (T, T) -> bool, x: T, y: T, z: T)
    requires TotalPreorder(le) && !le(y, z)
    ensures Tie(le, x, y) + Tie(le, x, z) == Tie(le, x, z) + Tie(le, x, y)
  {}

  lemma SwapTies<T>(le: (T, T) -> bool, x: T, y: T, z: T, tail: seq<T>, inserted: seq<T>)
    requires TiedWith(le, x, inserted) == TiedWith(le, x, [y] + tail)
    requires Tie(le, x, y) + Tie(le, x, z) == Tie(le, x, z) + Tie(le, x, y)
    ensures TiedWith(le, x, [z] + inserted) == TiedWith(le, x, [y] + ([z] + tail))
  {
    hide TiedWith, Tie;
    TiedCons(le, x, z, inserted);
    TiedCons(le, x, y, tail);
    TiedCons(le, x, y, [z] + tail);
    TiedCons(le, x, z, tail);
    var rest := TiedWith(le, x, tail);
    assert Tie(le, x, z) + (Tie(le, x, y) + rest) == (Tie(le, x, z) + Tie(le, x, y)) + rest;
    assert Tie(le, x, y) + (Tie(le, x, z) + rest) == (Tie(le, x, y) + Tie(le, x, z)) + rest;
  }

  lemma {:induction false} InsertStable<T(!new)>(le: (T, T) -> bool, x: T, y: T, xs: seq<T>)
    requires TotalPreorder(le) && Sorted(le, xs)
    ensures TiedWith(le, x, Insert(le, y, xs)) == TiedWith(le, x, [y] + xs)
  {
    hide TiedWith, Tie, TotalPreorder, Sorted;
    if xs != [] && !le(y, xs[0]) {
      SortedTail(le, xs);
      InsertStable(le, x, y, xs[1..]);
      OneTie(le, x, y, xs[0]);
      SwapTies(le, x, y, xs[0], xs[1..], Insert(le, y, xs[1..]));
      assert xs == [xs[0]] + xs[1..];
    } else if xs == [] {
      assert [y] + xs == [y];
    }
  }

  /** The sort is stable: tied elements keep their order. */
  lemma {:induction false} SortStable<T(!new)>(le: (T, T) -> bool, x: T, xs: seq<T>)
    requires TotalPreorder(le)
    ensures TiedWith(le, x, SortBy(le, xs)) == TiedWith(le, x, xs)
  {
    if xs != [] {
      SortStable(le, x, xs[1..]);
      SortBySorted(le, xs[1..]);
      InsertStable(le, x, xs[0], SortBy(le, xs[1..]));
      TiedCons(le, x, xs[0], SortBy(le, xs[1..]));
    }
  }

  /** The frozen order is by preference, and equally preferred wishes keep the order they came in. */
  lemma OrderedByPreference(vs: seq<Volunteer>, entity: string, v: Volunteer)
    ensures Sorted(ByPreference(entity), Ordered(vs, entity))
    ensures TiedWith(ByPreference(entity), v, Ordered(vs, entity)) == TiedWith(ByPreference(entity), v, vs)
  {
    PreferenceIsOrder(entity);
    SortBySorted(ByPreference(entity), vs);
    SortStable(ByPreference(entity), v, vs);
  }

  // ----- the current volunteer -----

  predicate Eligible(v: Volunteer, retry: Option<nat>) { !v.rejected && (retry == None || retry == Some(v.wish)) }

  /** Position of the first eligible wish. */
  function FirstEligible(vs: seq<Volunteer>, retry: Option<nat>): (r: Option<nat>)
    ensures r.Some? ==> r.value < |vs| && Eligible(vs[r.value], retry) && forall k | 0 <= k < r.value :: !Eligible(vs[k], retry)
    ensures r.None? ==> forall k | 0 <= k < |vs| :: !Eligible(vs[k], retry)
  {
    if vs == [] then None
    else if Eligible(vs[0], retry) then Some(0)
    else
      match FirstEligible(vs[1..], retry)
      case None => None
      case Some(k) => Some(k + 1)
  }

  function Wishes(vs: seq<Volunteer>): (r: seq<nat>)
    ensures |r| == |vs| && forall i | 0 <= i < |vs| :: r[i] == vs[i].wish
  {
    seq(|vs|, i requires 0 <= i < |vs| => vs[i].wish)
  }

  /** prepareSnapshot as far as the choice of the volunteer goes. */
  method PrepareSnapshot(volunteers: seq<Volunteer>, entity: string, retry: Option<nat>)
    returns (order: seq<nat>, current: Option<Volunteer>, rank: nat)
    ensures order == Wishes(Ordered(volunteers, entity))
    ensures var first := FirstEligible(Ordered(volunteers, entity), retry);
            if first.Some? then current == Some(Ordered(volunteers, entity)[first.value]) && rank == first.value + 1
            else current == None && rank == 0
  {
    hide SortBy;
    var sorted := SortBy(ByPreference(entity), volunteers);
    order, current, rank := [], None, 0;
    for i := 0 to |sorted|
      invariant order == Wishes(sorted)[..i]
      invariant current.None? ==> rank == 0 && forall k | 0 <= k < i :: !Eligible(sorted[k], retry)
      invariant current.Some? ==>
        && 1 <= rank <= i && current == Some(sorted[rank - 1]) && Eligible(sorted[rank - 1], retry)
        && forall k | 0 <= k < rank - 1 :: !Eligible(sorted[k], retry)
    {
      order := order + [sorted[i].wish];
      if current.None? && !sorted[i].rejected && (retry == None || retry == Some(sorted[i].wish)) {
        current, rank := Some(sorted[i]), i + 1;
      }
    }
  }

  // ----- rounds of rejections -----

  function Reject(vs: seq<Volunteer>, wish: nat): (r: seq<Volunteer>)
    ensures |r| == |vs|
  {
    Each((v: Volunteer) => if v.wish == wish then v.(rejected := true) else v, vs)
  }

  function Unrejected(vs: seq<Volunteer>): nat {
    if vs == [] then 0 else (if vs[0].rejected then 0 else 1) + Unrejected(vs[1..])
  }

  lemma {:induction false} RejectLowers(vs: seq<Volunteer>, k: nat)
    requires k < |vs| && !vs[k].rejected
    ensures Unrejected(Reject(vs, vs[k].wish)) < Unrejected(vs)
  {
    RejectNeverRaises(vs[1..], vs[k].wish);
    assert Reject(vs, vs[k].wish)[1..] == Reject(vs[1..], vs[k].wish);
    if k > 0 {
      RejectLowers(vs[1..], k - 1);
    }
  }

  lemma {:induction false} RejectNeverRaises(vs: seq<Volunteer>, wish: nat)
    ensures Unrejected(Reject(vs, wish)) <= Unrejected(vs)
  {
    if vs != [] {
      assert Reject(vs, wish)[1..] == Reject(vs[1..], wish);
      RejectNeverRaises(vs[1..], wish);
    }
  }

  /** The volunteer to assess next. */
  function Current(vs: seq<Volunteer>, entity: string, retry: Option<nat>): (r: Option<nat>)
    ensures r.Some? ==> exists v :: v in vs && Eligible(v, retry) && v.wish == r.value
  {
    var sorted := Ordered(vs, entity);
    match FirstEligible(sorted, retry)
    case None => None
    case Some(k) =>
      SameElements(sorted, vs);
      assert sorted[k] in sorted;
      Some(sorted[k].wish)
  }

  /** The wishes assessed when every assessment ends in a rejection: the snapshot is prepared anew
      each time, with the last wish marked rejected and no wish to retry any more. */
  function Assessed(vs: seq<Volunteer>, entity: string, retry: Option<nat>): seq<nat>
    decreases Unrejected(Ordered(vs, entity))
  {
    match Current(vs, entity, retry)
    case None => []
    case Some(w) =>
      RejectingCurrentLowers(vs, entity, retry);
      [w] + Assessed(Reject(vs, w), entity, None)
  }

  lemma RejectingCurrentLowers(vs: seq<Volunteer>, entity: string, retry: Option<nat>)
    requires Current(vs, entity, retry).Some?
    ensures Unrejected(Ordered(Reject(vs, Current(vs, entity, retry).value), entity)) < Unrejected(Ordered(vs, entity))
  {
    hide SortBy, Unrejected;
    var sorted := Ordered(vs, entity);
    var k := FirstEligible(sorted, retry).value;
    RejectCommutes(vs, entity, sorted[k].wish);
    RejectLowers(sorted, k);
  }

  /** Marking a rejection does not change the order. */
  lemma RejectCommutes(vs: seq<Volunteer>, entity: string, wish: nat)
    ensures Ordered(Reject(vs, wish), entity) == Reject(Ordered(vs, entity), wish)
  {
    SortByCommutes(ByPreference(entity), ByPreference(entity), (v: Volunteer) => if v.wish == wish then v.(rejected := true) else v, vs);
  }

  /** The wishes still open, in order. */
  function Pending(vs: seq<Volunteer>): seq<nat> {
    if vs == [] then [] else (if vs[0].rejected then [] else [vs[0].wish]) + Pending(vs[1..])
  }

  predicate IsOpen(vs: seq<Volunteer>, wish: nat) { exists v :: v in vs && v.wish == wish && !v.rejected }

  /** What lies ahead: the open wishes in preference order; a wish to retry comes first, and if it is
      not open nothing is assessed at all. */
  function Agenda(vs: seq<Volunteer>, entity: string, retry: Option<nat>): seq<nat> {
    match retry
    case None => Pending(Ordered(vs, entity))
    case Some(w) => if IsOpen(vs, w) then [w] + Pending(Ordered(Reject(vs, w), entity)) else []
  }

  ghost predicate DistinctWishes(vs: seq<Volunteer>) { forall i, j | 0 <= i < j < |vs| :: vs[i].wish != vs[j].wish }

  lemma RejectCons(vs: seq<Volunteer>, wish: nat)
    requires vs != []
    ensures Reject(vs, wish) == [if vs[0].wish == wish then vs[0].(rejected := true) else vs[0]] + Reject(vs[1..], wish)
  {}

  lemma PendingCons(v: Volunteer, rest: seq<Volunteer>)
    ensures Pending([v] + rest) == (if v.rejected then [] else [v.wish]) + Pending(rest)
  {
    assert ([v] + rest)[1..] == rest;
  }

  lemma {:induction false} PendingAfterFirst(vs: seq<Volunteer>, k: nat)
    requires DistinctWishes(vs) && FirstEligible(vs, None) == Some(k)
    ensures Pending(vs) == [vs[k].wish] + Pending(Reject(vs, vs[k].wish))
  {
    hide Reject, Pending;
    assert vs == [vs[0]] + vs[1..];
    PendingCons(vs[0], vs[1..]);
    RejectCons(vs, vs[k].wish);
    if k > 0 {
      DistinctTail(vs);
      PendingAfterFirst(vs[1..], k - 1);
      PendingCons(vs[0], Reject(vs[1..], vs[k].wish));
    } else {
      RejectElsewhere(vs[1..], vs[0].wish);
      PendingCons(vs[0].(rejected := true), vs[1..]);
    }
  }

  lemma DistinctTail(vs: seq<Volunteer>)
    requires vs != [] && DistinctWishes(vs)
    ensures DistinctWishes(vs[1..])
  {
    assert forall i, j | 0 <= i < j < |vs[1..]| :: vs[1..][i] == vs[i + 1] && vs[1..][j] == vs[j + 1];
  }

  lemma RejectElsewhere(vs: seq<Volunteer>, wish: nat)
    requires forall i | 0 <= i < |vs| :: vs[i].wish != wish
    ensures Reject(vs, wish) == vs
  {}

  lemma {:induction false} NothingPending(vs: seq<Volunteer>)
    requires FirstEligible(vs, None) == None
    ensures Pending(vs) == []
  {
    if vs != [] {
      NothingPending(vs[1..]);
    }
  }

  lemma DistinctAfterReject(vs: seq<Volunteer>, wish: nat)
    requires DistinctWishes(vs)
    ensures DistinctWishes(Reject(vs, wish))
  {}

  lemma OrderedDistinct(vs: seq<Volunteer>, entity: string)
    requires DistinctWishes(vs)
    ensures DistinctWishes(Ordered(vs, entity))
  {
    hide SortBy;
    var r := Ordered(vs, entity);
    SameElements(r, vs);
    forall i, j | 0 <= i < j < |r| ensures r[i].wish != r[j].wish {
      assert r[i] in vs && r[j] in vs;
      var k :| 0 <= k < |vs| && vs[k] == r[i];
      var l :| 0 <= l < |vs| && vs[l] == r[j];
      TwicePresent(r, i, j);
      OncePresent(vs, k);
    }
  }

  /** Rejecting the current volunteer takes exactly the head off what lies ahead. */
  lemma AgendaAdvances(vs: seq<Volunteer>, entity: string, retry: Option<nat>)
    requires DistinctWishes(vs)
    ensures match Current(vs, entity, retry)
            case None => Agenda(vs, entity, retry) == []
            case Some(w) => Agenda(vs, entity, retry) == [w] + Agenda(Reject(vs, w), entity, None)
  {
    hide SortBy, Pending, Reject;
    var sorted := Ordered(vs, entity);
    SameElements(sorted, vs);
    match FirstEligible(sorted, retry) {
      case None =>
        if retry.None? {
          NothingPending(sorted);
        }
      case Some(k) =>
        assert sorted[k] in sorted;
        if retry.None? {
          OrderedDistinct(vs, entity);
          PendingAfterFirst(sorted, k);
          RejectCommutes(vs, entity, sorted[k].wish);
        }
    }
  }

  /** Successive rejections assess exactly the wishes that were open at the start, in preference
      order, each once, and then stop; a wish to retry is assessed first. */
  lemma {:induction false} RejectionsFollowPreference(vs: seq<Volunteer>, entity: string, retry: Option<nat>)
    requires DistinctWishes(vs)
    ensures Assessed(vs, entity, retry) == Agenda(vs, entity, retry)
    decreases Unrejected(Ordered(vs, entity))
  {
    hide Agenda, Current, Ordered, Unrejected;
    AgendaAdvances(vs, entity, retry);
    if Current(vs, entity, retry).Some? {
      var w := Current(vs, entity, retry).value;
      RejectingCurrentLowers(vs, entity, retry);
      DistinctAfterReject(vs, w);
      RejectionsFollowPreference(Reject(vs, w), entity, None);
    }
  }

  // ----- the order, on the wishes' own fields -----

  predicate ForEntity(v: Volunteer, entity: string) { entity != "" && v.entity == entity }

  /** Application dates compare as text; a wish without one counts as the last day of 9999. */
  predicate NoLater(a: Volunteer, b: Volunteer) {
    StringLe(if a.applyDate == "" then "9999-12-31" else a.applyDate, if b.applyDate == "" then "9999-12-31" else b.applyDate)
  }

  /** In the frozen order wishes for the preferred entity come first, and within both parts the dates
      ascend. */
  lemma OrderOnFields(vs: seq<Volunteer>, entity: string, i: nat, j: nat)
    requires i < j < |Ordered(vs, entity)|
    ensures var (a, b) := (Ordered(vs, entity)[i], Ordered(vs, entity)[j]);
            && (ForEntity(b, entity) ==> ForEntity(a, entity))
            && (ForEntity(a, entity) == ForEntity(b, entity) ==> NoLater(a, b))
  {
    hide SortBy, StringLe;
    PreferenceIsOrder(entity);
    SortBySorted(ByPreference(entity), vs);
    assert ByPreference(entity)(Ordered(vs, entity)[i], Ordered(vs, entity)[j]);
  }

  /** The next volunteer is an open wish; one for the preferred entity if there is any, and of the
      earliest date among its like. */
  lemma CurrentOnFields(vs: seq<Volunteer>, entity: string)
    ensures Current(vs, entity, None) == None <==> forall v | v in vs :: v.rejected
    ensures Current(vs, entity, None).Some? ==> exists v :: v in vs && Leads(v, vs, entity) && v.wish == Current(vs, entity, None).value
  {
    hide SortBy, NoLater, ForEntity;
    var sorted := Ordered(vs, entity);
    SameElements(sorted, vs);
    match FirstEligible(sorted, None) {
      case None =>
        forall v | v in vs ensures v.rejected {
          assert v in sorted;
          var i :| 0 <= i < |sorted| && sorted[i] == v;
          assert !Eligible(sorted[i], None);
        }
      case Some(k) =>
        assert sorted[k] in vs;
        forall u | u in vs && !u.rejected ensures Behind(sorted[k], u, entity) {
          assert u in sorted;
          var i :| 0 <= i < |sorted| && sorted[i] == u;
          if k < i {
            OrderOnFields(vs, entity, k, i);
          } else {
            assert k == i;
            SameDate(u);
          }
        }
        assert Leads(sorted[k], vs, entity);
    }
  }

  lemma SameDate(v: Volunteer)
    ensures NoLater(v, v)
  {
    StringOrder();
  }

  /** u may wait behind v. */
  predicate Behind(v: Volunteer, u: Volunteer, entity: string) {
    && (ForEntity(u, entity) ==> ForEntity(v, entity)) && (ForEntity(u, entity) == ForEntity(v, entity) ==> NoLater(v, u))
  }

  ghost predicate Leads(v: Volunteer, vs: seq<Volunteer>, entity: string) {
    !v.rejected && forall u | u in vs && !u.rejected :: Behind(v, u, entity)
  }

  /** A wish to retry is the only one considered. */
  lemma RetryOnFields(vs: seq<Volunteer>, entity: string, wish: nat)
    ensures Current(vs, entity, Some(wish)) == if exists v :: v in vs && v.wish == wish && !v.rejected then Some(wish) else None
  {
    hide SortBy;
    var sorted := Ordered(vs, entity);
    SameElements(sorted, vs);
    match FirstEligible(sorted, Some(wish)) {
      case None =>
        forall v | v in vs ensures v.wish != wish || v.rejected {
          assert v in sorted;
          var i :| 0 <= i < |sorted| && sorted[i] == v;
          assert !Eligible(sorted[i], Some(wish));
        }
      case Some(k) => assert sorted[k] in vs;
    }
  }
}
