/** Balance between demands that are tied on everything the balancing may not override. */
module AllocationFairness {
  import opened Orders
  import opened AllocationTypes
  import opened AllocationPolicy
  import opened AllocationBatching

  /** Every member can take exactly the demands K, and among those K neither preferred hits nor
      priority separate two demands; no member has been counted for one of them already. */
  ghost predicate Tied(ms: seq<Member>, demands: seq<Demand>, K: set<nat>) {
    && DistinctDemands(demands) && K != {}
    && (forall c | c in K :: exists d :: d in demands && d.demandId == c)
    && (forall m, d | m in ms && d in demands :: Feasible(m, d) <==> d.demandId in K)
    && (forall m, d, e | m in ms && d in demands && e in demands && d.demandId in K && e.demandId in K ::
          Level(m, d) == Level(m, e))
    && (forall m, c | m in ms && c in K :: c !in m.counted)
  }

  /** The part of the rank that balancing must not override. */
  function Level(m: Member, d: Demand): (int, int) { (Hits(TagTable(m.tags), d.preferred), d.priority) }

  /** The part of the rank that balances. */
  function Load(t: Tally, c: nat): seq<int> { [At(t.supply, c), At(t.last, c), c] }

  ghost predicate LeastLoaded(t: Tally, K: set<nat>, c: nat) {
    c in K && forall e | e in K :: LexLe(Load(t, c), Load(t, e))
  }

  lemma RankByLoad(m: Member, d: Demand, e: Demand, t: Tally)
    requires Level(m, d) == Level(m, e) && LexLe(Rank(m, d, t), Rank(m, e, t))
    ensures LexLe(Load(t, d.demandId), Load(t, e.demandId))
  {
    hide Hits, TagTable;
    var r, q := Rank(m, d, t), Rank(m, e, t);
    assert r[0] == q[0] && LexLe(r[1..], q[1..]);
    assert r[1..][0] == q[1..][0] && LexLe(r[1..][1..], q[1..][1..]);
    assert r[1..][1..] == Load(t, d.demandId) && q[1..][1..] == Load(t, e.demandId);
  }

  /** With tied demands the pick is the least loaded one, and it is charged with the member. */
  lemma TiedPick(m: Member, ms: seq<Member>, demands: seq<Demand>, K: set<nat>, t: Tally)
    requires Tied(ms, demands, K) && m in ms
    ensures var d := Decide(m, demands, t);
            && d.action == Assign && LeastLoaded(t, K, d.demandId) && d.sequence == t.sequence
            && Absorb(m, d, t) == Tally(t.supply[d.demandId := At(t.supply, d.demandId) + 1],
                                        t.last[d.demandId := t.sequence], t.sequence + 1)
  {
    hide InOrder, Feasible, Rank, LexLe, Level, Load;
    var i := TiedChoice(m, ms, demands, K, t);
    forall e | e in K ensures LexLe(Load(t, demands[i].demandId), Load(t, e)) {
      var d :| d in demands && d.demandId == e;
      var j :| 0 <= j < |demands| && demands[j] == d;
      assert Feasible(m, d) && Feasibles(m, demands)[j];
      assert LexLe(Ranks(m, demands, t)[i], Ranks(m, demands, t)[j]);
      assert Level(m, demands[i]) == Level(m, d);
      RankByLoad(m, demands[i], d, t);
    }
  }

  lemma TiedChoice(m: Member, ms: seq<Member>, demands: seq<Demand>, K: set<nat>, t: Tally) returns (i: int)
    requires Tied(ms, demands, K) && m in ms
    ensures IsChoice(m, demands, t, i) && demands[i] in demands && demands[i].demandId in K
    ensures Decide(m, demands, t) == Assignment(m, demands[i], t)
  {
    hide InOrder, Feasible, Rank, LexLe, Level, Assignment;
    var k :| k in K;
    var some :| some in demands && some.demandId == k;
    assert Feasible(m, some);
    ChoiceExists(m, demands, t);
    i :| IsChoice(m, demands, t, i) && Decide(m, demands, t) == Assignment(m, demands[i], t);
    ChosenIsFeasible(m, demands, t, i);
  }

  lemma ChosenIsFeasible(m: Member, demands: seq<Demand>, t: Tally, i: int)
    requires IsChoice(m, demands, t, i)
    ensures 0 <= i < |demands| && demands[i] in demands && Feasible(m, demands[i])
  {
    hide Feasible, Rank, LexLe;
  }

  // ----- the run, step by step -----

  ghost function State(ms: seq<Member>, demands: seq<Demand>, t: Tally, n: nat): Tally
    requires n <= |ms|
  {
    Run(ms[..n], demands, t).1
  }

  ghost function Pick(ms: seq<Member>, demands: seq<Demand>, t: Tally, n: nat): nat
    requires n < |ms|
  {
    Decide(ms[n], demands, State(ms, demands, t, n)).demandId
  }

  lemma StateAtStart(ms: seq<Member>, demands: seq<Demand>, t: Tally)
    ensures State(ms, demands, t, 0) == t
  {
    assert ms[..0] == [];
  }

  lemma StateStep(ms: seq<Member>, demands: seq<Demand>, t: Tally, n: nat)
    requires n < |ms|
    ensures var s := State(ms, demands, t, n);
            State(ms, demands, t, n + 1) == Absorb(ms[n], Decide(ms[n], demands, s), s)
  {
    hide Decide, Absorb;
    assert ms[..n + 1] == ms[..n] + [ms[n]];
    RunAppend(ms[..n], [ms[n]], demands, t);
    var s := State(ms, demands, t, n);
    RunCons(ms[n], [], demands, s);
    assert [ms[n]] + [] == [ms[n]];
  }

  lemma DecisionAt(ms: seq<Member>, demands: seq<Demand>, t: Tally, n: nat)
    requires n < |ms|
    ensures Run(ms, demands, t).0[n] == Decide(ms[n], demands, State(ms, demands, t, n))
  {
    hide Decide, Absorb;
    assert ms == ms[..n] + ms[n..];
    RunAppend(ms[..n], ms[n..], demands, t);
    assert ms[n..][0] == ms[n];
  }

  /** What one step does to the loads of K. */
  lemma LoadStep(ms: seq<Member>, demands: seq<Demand>, K: set<nat>, t: Tally, n: nat)
    requires Tied(ms, demands, K) && n < |ms|
    ensures var s, s1, c := State(ms, demands, t, n), State(ms, demands, t, n + 1), Pick(ms, demands, t, n);
            && LeastLoaded(s, K, c) && s1.sequence == s.sequence + 1
            && At(s1.supply, c) == At(s.supply, c) + 1 && At(s1.last, c) == s.sequence
            && forall e | e != c :: At(s1.supply, e) == At(s.supply, e) && At(s1.last, e) == At(s.last, e)
  {
    hide Decide, Tied, LeastLoaded, State;
    StateStep(ms, demands, t, n);
    assert ms[n] in ms;
    TiedPick(ms[n], ms, demands, K, State(ms, demands, t, n));
  }

  // ----- balance -----

  ghost function Received(ms: seq<Member>, demands: seq<Demand>, t: Tally, n: nat): set<nat>
    requires n <= |ms|
  {
    set i | 0 <= i < n :: Pick(ms, demands, t, i)
  }

  lemma LeastSupply(t: Tally, K: set<nat>, c: nat)
    requires LeastLoaded(t, K, c)
    ensures forall e | e in K :: At(t.supply, c) <= At(t.supply, e)
  {
    forall e | e in K ensures At(t.supply, c) <= At(t.supply, e) {
      assert LexLe(Load(t, c), Load(t, e));
    }
  }

  /** After any number of assignments, whoever received one is at most one above the minimum. */
  lemma {:induction false} ReceiversStayBalanced(ms: seq<Member>, demands: seq<Demand>, K: set<nat>, t: Tally, n: nat)
    requires Tied(ms, demands, K) && n <= |ms|
    ensures Received(ms, demands, t, n) <= K
    ensures var s := State(ms, demands, t, n);
            forall r, e | r in Received(ms, demands, t, n) && e in K :: At(s.supply, r) <= At(s.supply, e) + 1
  {
    hide Tied, State, Pick;
    if n > 0 {
      ReceiversStayBalanced(ms, demands, K, t, n - 1);
      var s, c := State(ms, demands, t, n - 1), Pick(ms, demands, t, n - 1);
      LoadStep(ms, demands, K, t, n - 1);
      LeastSupply(s, K, c);
      assert Received(ms, demands, t, n) == Received(ms, demands, t, n - 1) + {c};
    }
  }

  // ----- rotation -----

  ghost predicate Level1(t: Tally, K: set<nat>) {
    && (forall a, b | a in K && b in K :: At(t.supply, a) <= At(t.supply, b) + 1)
    && (forall a | a in K :: At(t.last, a) < t.sequence)
  }

  ghost predicate EqualStart(t: Tally, K: set<nat>) {
    && (forall a, b | a in K && b in K :: At(t.supply, a) == At(t.supply, b))
    && (forall a | a in K :: At(t.last, a) < t.sequence)
  }

  lemma {:induction false} StaysLevel(ms: seq<Member>, demands: seq<Demand>, K: set<nat>, t: Tally, n: nat)
    requires Tied(ms, demands, K) && EqualStart(t, K) && n <= |ms|
    ensures Level1(State(ms, demands, t, n), K)
  {
    hide Tied, State, Pick;
    if n == 0 {
      StateAtStart(ms, demands, t);
    } else {
      StaysLevel(ms, demands, K, t, n - 1);
      LoadStep(ms, demands, K, t, n - 1);
      LeastSupply(State(ms, demands, t, n - 1), K, Pick(ms, demands, t, n - 1));
    }
  }

  /** The load of a demand that is not picked does not move. */
  lemma {:induction false} UnpickedKeeps(ms: seq<Member>, demands: seq<Demand>, K: set<nat>, t: Tally, i: nat, n: nat, e: nat)
    requires Tied(ms, demands, K) && i <= n <= |ms|
    requires forall j | i <= j < n :: Pick(ms, demands, t, j) != e
    ensures var s, s1 := State(ms, demands, t, i), State(ms, demands, t, n);
            At(s1.supply, e) == At(s.supply, e) && At(s1.last, e) == At(s.last, e)
    decreases n - i
  {
    hide Tied, State, Pick;
    if i < n {
      LoadStep(ms, demands, K, t, n - 1);
      UnpickedKeeps(ms, demands, K, t, i, n - 1, e);
    }
  }

  lemma LoadComparison(t: Tally, d: nat, e: nat)
    requires LexLe(Load(t, d), Load(t, e))
    ensures At(t.supply, d) < At(t.supply, e)
            || (At(t.supply, d) == At(t.supply, e) && At(t.last, d) <= At(t.last, e))
  {
    var x, y := Load(t, d), Load(t, e);
    assert x[1..] == [At(t.last, d), d] && y[1..] == [At(t.last, e), e];
  }

  /** Between two picks of one demand every other demand is picked. */
  lemma OthersInBetween(ms: seq<Member>, demands: seq<Demand>, K: set<nat>, t: Tally, i: nat, j: nat, e: nat)
    requires Tied(ms, demands, K) && EqualStart(t, K) && i < j < |ms|
    requires Pick(ms, demands, t, i) == Pick(ms, demands, t, j) != e && e in K
    requires forall n | i < n < j :: Pick(ms, demands, t, n) != Pick(ms, demands, t, i)
    ensures exists n :: i < n < j && Pick(ms, demands, t, n) == e
  {
    hide Tied, State, Pick;
    var d := Pick(ms, demands, t, i);
    var si, sj := State(ms, demands, t, i), State(ms, demands, t, j);
    LoadStep(ms, demands, K, t, i);
    LoadStep(ms, demands, K, t, j);
    StaysLevel(ms, demands, K, t, i);
    UnpickedKeeps(ms, demands, K, t, i + 1, j, d);
    if forall n: nat | i < n < j :: Pick(ms, demands, t, n) != e {
      UnpickedKeeps(ms, demands, K, t, i + 1, j, e);
      LoadComparison(sj, d, e);
      assert false;
    }
  }

  lemma SetWithin(K: set<nat>, xs: seq<nat>)
    requires forall e | e in K :: e in xs
    ensures |K| <= |xs|
    decreases |xs|
  {
    if xs == [] {
      assert K == {};
    } else {
      var rest := K - {xs[0]};
      assert xs == [xs[0]] + xs[1..];
      forall e | e in rest ensures e in xs[1..] {
        assert e in xs;
      }
      SetWithin(rest, xs[1..]);
      assert K <= rest + {xs[0]};
      assert |K| <= |rest| + 1 by {
        if xs[0] in K { assert K == rest + {xs[0]}; } else { assert K == rest; }
      }
    }
  }

  lemma NextOccurrenceFar(ms: seq<Member>, demands: seq<Demand>, K: set<nat>, t: Tally, i: nat, j: nat)
    requires Tied(ms, demands, K) && EqualStart(t, K) && i < j < |ms|
    requires Pick(ms, demands, t, i) == Pick(ms, demands, t, j)
    requires forall n | i < n < j :: Pick(ms, demands, t, n) != Pick(ms, demands, t, i)
    ensures j - i >= |K|
  {
    hide Tied, State, Pick;
    var d := Pick(ms, demands, t, i);
    LoadStep(ms, demands, K, t, i);
    var between: seq<nat> := seq(j - i - 1, k requires 0 <= k < j - i - 1 => Pick(ms, demands, t, i + 1 + k));
    forall e | e in K - {d} ensures e in between {
      OthersInBetween(ms, demands, K, t, i, j, e);
      var n :| i < n < j && Pick(ms, demands, t, n) == e;
      assert between[n - i - 1] == e;
    }
    SetWithin(K - {d}, between);
  }

  /** From equal supplies the picks rotate: a window of |K| assignments repeats no demand. */
  lemma {:induction false} PicksRotate(ms: seq<Member>, demands: seq<Demand>, K: set<nat>, t: Tally, i: nat, j: nat)
    requires Tied(ms, demands, K) && EqualStart(t, K)
    requires i < j < |ms| && j - i < |K|
    ensures Run(ms, demands, t).0[i].demandId != Run(ms, demands, t).0[j].demandId
    decreases j - i
  {
    hide Tied, State, Decide;
    DecisionAt(ms, demands, t, i);
    DecisionAt(ms, demands, t, j);
    if Pick(ms, demands, t, i) == Pick(ms, demands, t, j) {
      if n :| i < n < j && Pick(ms, demands, t, n) == Pick(ms, demands, t, i) {
        PicksRotate(ms, demands, K, t, n, j);
        DecisionAt(ms, demands, t, n);
      } else {
        NextOccurrenceFar(ms, demands, K, t, i, j);
      }
    }
  }

  /** Any |K| consecutive assignments reach every demand of K. */
  lemma WindowCoversAll(ms: seq<Member>, demands: seq<Demand>, K: set<nat>, t: Tally, i: nat)
    requires Tied(ms, demands, K) && EqualStart(t, K) && i + |K| <= |ms|
    ensures (set n | i <= n < i + |K| :: Run(ms, demands, t).0[n].demandId) == K
  {
    hide Tied, Decide, State;
    var ds := Run(ms, demands, t).0;
    var hit := set n | i <= n < i + |K| :: ds[n].demandId;
    forall n | i <= n < i + |K| ensures ds[n].demandId in K {
      LoadStep(ms, demands, K, t, n);
      DecisionAt(ms, demands, t, n);
    }
    WindowSize(ms, demands, K, t, i, |K|);
    SubsetOfSameSize(hit, K);
  }

  lemma {:induction false} WindowSize(ms: seq<Member>, demands: seq<Demand>, K: set<nat>, t: Tally, i: nat, w: nat)
    requires Tied(ms, demands, K) && EqualStart(t, K) && w <= |K| && i + w <= |ms|
    ensures |set n | i <= n < i + w :: Run(ms, demands, t).0[n].demandId| == w
  {
    hide Tied, Decide, Run;
    var ds := Run(ms, demands, t).0;
    if w > 0 {
      WindowSize(ms, demands, K, t, i, w - 1);
      var before := set n | i <= n < i + w - 1 :: ds[n].demandId;
      var c := ds[i + w - 1].demandId;
      forall n | i <= n < i + w - 1 ensures ds[n].demandId != c {
        PicksRotate(ms, demands, K, t, n, i + w - 1);
      }
      assert (set n | i <= n < i + w :: ds[n].demandId) == before + {c};
    }
  }

  lemma SubsetOfSameSize(a: set<nat>, b: set<nat>)
    requires a <= b && |a| == |b|
    ensures a == b
  {
    if !(b <= a) {
      var x :| x in b && x !in a;
      SubsetSize(a, b - {x});
    }
  }

  lemma {:induction false} SubsetSize(a: set<nat>, b: set<nat>)
    requires a <= b
    ensures |a| <= |b|
  {
    if x :| x in a {
      SubsetSize(a - {x}, b - {x});
    } else {
      assert a == {};
    }
  }
}
