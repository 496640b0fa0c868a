/** Total orders, sorting and the fact that a sorted arrangement is unique when the order
    separates the elements. Library sort calls of the program are represented by SortBy. */
module Orders {

  ghost predicate TotalPreorder<T(!new)>(le: (T, T) -> bool) {
    && (forall x, y :: le(x, y) || le(y, x))
    && (forall x, y, z :: le(x, y) && le(y, z) ==> le(x, z))
  }

  ghost predicate Sorted<T>(le: (T, T) -> bool, xs: seq<T>) {
    forall i, j | 0 <= i < j < |xs| :: le(xs[i], xs[j])
  }

  /** Among the elements of xs, two equivalent ones are identical. */
  ghost predicate Separates<T>(le: (T, T) -> bool, xs: seq<T>) {
    forall x, y | x in xs && y in xs && le(x, y) && le(y, x) :: x == y
  }

  function Insert<T>(le: (T, T) -> bool, x: T, xs: seq<T>): (r: seq<T>)
    ensures |r| == |xs| + 1
    ensures multiset(r) == multiset{x} + multiset(xs)
  {
    if xs == [] then [x]
    else if le(x, xs[0]) then [x] + xs
    else
      assert xs == [xs[0]] + xs[1..];
      [xs[0]] + Insert(le, x, xs[1..])
  }

  function SortBy<T>(le: (T, T) -> bool, xs: seq<T>): (r: seq<T>)
    ensures |r| == |xs|
    ensures multiset(r) == multiset(xs)
  {
    if xs == [] then []
    else
      assert xs == [xs[0]] + xs[1..];
      Insert(le, xs[0], SortBy(le, xs[1..]))
  }

  lemma SameElements<T>(xs: seq<T>, ys: seq<T>)
    requires multiset(xs) == multiset(ys)
    ensures forall x :: x in xs <==> x in ys
  {
    forall x ensures x in xs <==> x in ys {
      assert x in xs <==> x in multiset(xs);
      assert x in ys <==> x in multiset(ys);
    }
  }

  /** Nothing in xs comes before x. */
  ghost predicate Heads<T>(le: (T, T) -> bool, x: T, xs: seq<T>) { forall y | y in xs :: le(x, y) }

  lemma SortedCons<T>(le: (T, T) -> bool, x: T, xs: seq<T>)
    requires Sorted(le, xs) && Heads(le, x, xs)
    ensures Sorted(le, [x] + xs)
  {
    var r := [x] + xs;
    forall i, j | 0 <= i < j < |r| ensures le(r[i], r[j]) {
      assert r[j] == xs[j - 1];
      if i > 0 {
        assert r[i] == xs[i - 1];
      }
    }
  }

  lemma SortedTail<T>(le: (T, T) -> bool, xs: seq<T>)
    requires xs != [] && Sorted(le, xs)
    ensures Sorted(le, xs[1..]) && Heads(le, xs[0], xs[1..])
  {
    assert forall i | 0 <= i < |xs[1..]| :: xs[1..][i] == xs[i + 1];
  }

  lemma HeadsLower<T(!new)>(le: (T, T) -> bool, x: T, y: T, xs: seq<T>)
    requires TotalPreorder(le) && le(x, y) && Heads(le, y, xs)
    ensures Heads(le, x, [y] + xs)
  {}

  lemma HeadsInserted<T(!new)>(le: (T, T) -> bool, x: T, y: T, xs: seq<T>)
    requires TotalPreorder(le) && !le(x, y) && Heads(le, y, xs)
    ensures Heads(le, y, Insert(le, x, xs))
  {
    var r := Insert(le, x, xs);
    forall z | z in r ensures le(y, z) {
      assert z in multiset(r);
      assert z == x || z in xs;
    }
  }

  lemma {:induction false} InsertSorted<T(!new)>(le: (T, T) -> bool, x: T, xs: seq<T>)
    requires TotalPreorder(le) && Sorted(le, xs)
    ensures Sorted(le, Insert(le, x, xs))
  {
    hide TotalPreorder, Sorted, Heads;
    if xs == [] {
      SingleSorted(le, x);
    } else {
      SortedTail(le, xs);
      assert xs == [xs[0]] + xs[1..];
      if le(x, xs[0]) {
        HeadsLower(le, x, xs[0], xs[1..]);
        SortedCons(le, x, xs);
      } else {
        InsertSorted(le, x, xs[1..]);
        HeadsInserted(le, x, xs[0], xs[1..]);
        SortedCons(le, xs[0], Insert(le, x, xs[1..]));
      }
    }
  }

  lemma SingleSorted<T>(le: (T, T) -> bool, x: T)
    ensures Sorted(le, [x])
  {}

  lemma {:induction false} SortBySorted<T(!new)>(le: (T, T) -> bool, xs: seq<T>)
    requires TotalPreorder(le)
    ensures Sorted(le, SortBy(le, xs))
  {
    if xs != [] {
      SortBySorted(le, xs[1..]);
      InsertSorted(le, xs[0], SortBy(le, xs[1..]));
    }
  }

  lemma SortedHead<T(!new)>(le: (T, T) -> bool, xs: seq<T>, ys: seq<T>)
    requires TotalPreorder(le) && Separates(le, xs)
    requires multiset(xs) == multiset(ys) && xs != [] && ys != []
    requires Sorted(le, xs) && Sorted(le, ys)
    ensures xs[0] == ys[0]
  {
    SameElements(xs, ys);
    assert ys[0] in ys && xs[0] in xs;
    var i :| 0 <= i < |xs| && xs[i] == ys[0];
    var j :| 0 <= j < |ys| && ys[j] == xs[0];
    assert le(xs[0], xs[i]) && le(ys[0], ys[j]);
  }

  lemma TailElements<T>(xs: seq<T>)
    requires xs != []
    ensures multiset(xs[1..]) == multiset(xs) - multiset{xs[0]}
    ensures forall x | x in xs[1..] :: x in xs
  {
    assert xs == [xs[0]] + xs[1..];
  }

  lemma SameLength<T>(xs: seq<T>, ys: seq<T>)
    requires multiset(xs) == multiset(ys)
    ensures |xs| == |ys|
  {
    assert |xs| == |multiset(xs)| && |ys| == |multiset(ys)|;
  }

  lemma SameTails<T>(xs: seq<T>, ys: seq<T>)
    requires multiset(xs) == multiset(ys) && xs != [] && ys != [] && xs[0] == ys[0]
    ensures multiset(xs[1..]) == multiset(ys[1..])
  {
    TailElements(xs);
    TailElements(ys);
  }

  lemma SeparatesTail<T>(le: (T, T) -> bool, xs: seq<T>)
    requires xs != [] && Separates(le, xs)
    ensures Separates(le, xs[1..])
  {
    TailElements(xs);
  }

  /** Two sorted arrangements of the same elements coincide. */
  lemma {:induction false} SortedUnique<T(!new)>(le: (T, T) -> bool, xs: seq<T>, ys: seq<T>)
    requires TotalPreorder(le) && Separates(le, xs)
    requires multiset(xs) == multiset(ys)
    requires Sorted(le, xs) && Sorted(le, ys)
    ensures xs == ys
  {
    hide TotalPreorder, Sorted, Separates;
    SameLength(xs, ys);
    if xs != [] {
      SortedHead(le, xs, ys);
      SameTails(xs, ys);
      SortedTail(le, xs);
      SortedTail(le, ys);
      SeparatesTail(le, xs);
      SortedUnique(le, xs[1..], ys[1..]);
      assert xs == [xs[0]] + xs[1..] && ys == [ys[0]] + ys[1..];
    }
  }

  /** Sorting depends only on the multiset of elements. */
  lemma SortByCongruent<T(!new)>(le: (T, T) -> bool, xs: seq<T>, ys: seq<T>)
    requires TotalPreorder(le) && Separates(le, xs)
    requires multiset(xs) == multiset(ys)
    ensures SortBy(le, xs) == SortBy(le, ys)
  {
    SortBySorted(le, xs);
    SortBySorted(le, ys);
    SameElements(xs, SortBy(le, xs));
    SortedUnique(le, SortBy(le, xs), SortBy(le, ys));
  }

  /** Lexicographic order, the shape of every multi-column comparison in the program. */
  predicate LexLe(a: seq<int>, b: seq<int>) {
    a == [] || (b != [] && (a[0] < b[0] || (a[0] == b[0] && LexLe(a[1..], b[1..]))))
  }

  /** Element by element: the first difference decides, and a prefix comes first. */
  lemma {:induction false} LexByFirstDifference(a: seq<int>, b: seq<int>, k: nat)
    requires k <= |a| && k <= |b| && a[..k] == b[..k]
    ensures k == |a| ==> LexLe(a, b)
    ensures k == |b| < |a| ==> !LexLe(a, b)
    ensures k < |a| && k < |b| && a[k] < b[k] ==> LexLe(a, b) && !LexLe(b, a)
  {
    if k > 0 {
      assert a[0] == a[..k][0] && b[0] == b[..k][0];
      assert a[1..][..k - 1] == a[..k][1..] && b[1..][..k - 1] == b[..k][1..];
      LexByFirstDifference(a[1..], b[1..], k - 1);
    }
  }

  lemma LexTotal(a: seq<int>, b: seq<int>)
    ensures LexLe(a, b) || LexLe(b, a)
  {}

  lemma {:induction false} LexTransitive(a: seq<int>, b: seq<int>, c: seq<int>)
    requires LexLe(a, b) && LexLe(b, c)
    ensures LexLe(a, c)
  {
    if a != [] && a[0] == b[0] == c[0] {
      LexTransitive(a[1..], b[1..], c[1..]);
    }
  }

  lemma {:induction false} LexAntisymmetric(a: seq<int>, b: seq<int>)
    requires LexLe(a, b) && LexLe(b, a)
    ensures a == b
  {
    if a != [] {
      LexAntisymmetric(a[1..], b[1..]);
      assert a == [a[0]] + a[1..] && b == [b[0]] + b[1..];
    }
  }

  /** Strings are compared by code point. */
  function CodePoints(s: string): (r: seq<int>)
    ensures |r| == |s| && forall i | 0 <= i < |s| :: r[i] == s[i] as int
  {
    seq(|s|, i requires 0 <= i < |s| => s[i] as int)
  }

  predicate StringLe(a: string, b: string) { LexLe(CodePoints(a), CodePoints(b)) }

  lemma StringByFirstDifference(a: string, b: string, k: nat)
    requires k <= |a| && k <= |b| && a[..k] == b[..k]
    ensures k == |a| ==> StringLe(a, b)
    ensures k < |a| && k < |b| && a[k] < b[k] ==> StringLe(a, b) && !StringLe(b, a)
  {
    hide LexLe;
    forall i | 0 <= i < k ensures CodePoints(a)[..k][i] == CodePoints(b)[..k][i] {
      assert a[..k][i] == b[..k][i];
    }
    assert CodePoints(a)[..k] == CodePoints(b)[..k];
    LexByFirstDifference(CodePoints(a), CodePoints(b), k);
  }

  lemma StringOrder()
    ensures TotalPreorder(StringLe)
    ensures forall xs: seq<string> :: Separates(StringLe, xs)
  {
    forall x, y ensures StringLe(x, y) || StringLe(y, x) {
      LexTotal(CodePoints(x), CodePoints(y));
    }
    forall x, y, z | StringLe(x, y) && StringLe(y, z) ensures StringLe(x, z) {
      LexTransitive(CodePoints(x), CodePoints(y), CodePoints(z));
    }
    forall x: string, y: string | StringLe(x, y) && StringLe(y, x) ensures x == y {
      LexAntisymmetric(CodePoints(x), CodePoints(y));
      forall i | 0 <= i < |x| ensures x[i] == y[i] {
        assert CodePoints(x)[i] == CodePoints(y)[i];
      }
    }
  }

  /** An order obtained by comparing integer keys lexicographically is a total preorder. */
  lemma KeyOrder<T(!new)>(key: T -> seq<int>, le: (T, T) -> bool)
    requires forall x, y :: le(x, y) <==> LexLe(key(x), key(y))
    ensures TotalPreorder(le)
  {
    forall x, y ensures le(x, y) || le(y, x) { LexTotal(key(x), key(y)); }
    forall x, y, z | le(x, y) && le(y, z) ensures le(x, z) { LexTransitive(key(x), key(y), key(z)); }
  }

  /** Position i is admissible, no admissible position ranks below it, no earlier one ranks equal. */
  ghost predicate Least(ok: seq<bool>, rank: seq<seq<int>>, i: int)
    requires |ok| == |rank|
  {
    && 0 <= i < |ok| && ok[i]
    && forall j | 0 <= j < |ok| && ok[j] :: LexLe(rank[i], rank[j]) && (rank[i] == rank[j] ==> i <= j)
  }

  lemma LeastUnique(ok: seq<bool>, rank: seq<seq<int>>, i: int, j: int)
    requires |ok| == |rank| && Least(ok, rank, i) && Least(ok, rank, j)
    ensures i == j
  {
    LexAntisymmetric(rank[i], rank[j]);
  }

  /** Keeping the best of a prefix up to date needs only one comparison with the new position. */
  lemma LeastExtend(ok: seq<bool>, rank: seq<seq<int>>, n: nat, b: int)
    requires |ok| == |rank| && n < |ok| && Least(ok[..n], rank[..n], b)
    ensures Least(ok[..n + 1], rank[..n + 1],
                  if ok[n] && LexLe(rank[n], rank[b]) && rank[n] != rank[b] then n else b)
  {
    LexTotal(rank[n], rank[b]);
    LexTotal(rank[n], rank[n]);
    if ok[n] && LexLe(rank[n], rank[b]) && rank[n] != rank[b] {
      forall j | 0 <= j < n && ok[j] ensures LexLe(rank[n], rank[j]) && rank[n] != rank[j] {
        assert ok[..n][j] && LexLe(rank[..n][b], rank[..n][j]);
        LexTransitive(rank[n], rank[b], rank[j]);
        if rank[n] == rank[j] { LexAntisymmetric(rank[n], rank[b]); }
      }
    } else {
      forall j | 0 <= j < n && ok[j] ensures LexLe(rank[b], rank[j]) && (rank[b] == rank[j] ==> b <= j) {
        assert ok[..n][j] && LexLe(rank[..n][b], rank[..n][j]) && rank[..n][b] == rank[b];
      }
    }
  }

  lemma {:induction false} LeastExists(ok: seq<bool>, rank: seq<seq<int>>) returns (i: int)
    requires |ok| == |rank| && true in ok
    ensures Least(ok, rank, i)
  {
    var n := |ok| - 1;
    assert ok == ok[..n] + [ok[n]] && ok[..n + 1] == ok && rank[..n + 1] == rank;
    if true in ok[..n] {
      i := LeastExists(ok[..n], rank[..n]);
      LeastExtend(ok, rank, n, i);
      i := if ok[n] && LexLe(rank[n], rank[i]) && rank[n] != rank[i] then n else i;
    } else {
      i := n;
      LexTotal(rank[n], rank[n]);
      assert forall j | 0 <= j < n :: ok[..n][j] == ok[j];
    }
  }
}
