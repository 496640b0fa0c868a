/** With outside writers silent the engine comes to rest: every step other than the clock's lowers a
    lexicographic measure, and when no such step is left nothing is claimable. */
module AllocationQuiescence {
  import opened Orders
  import opened AllocationTypes
  import opened AllocationPolicy
  import opened AllocationCanonical
  import opened AllocationBatching
  import opened AllocationStore
  import opened AllocationProtocol
  import opened AllocationCommit
  import opened AllocationInvariants
  import opened AllocationSafety
  import opened AllocationLinearisation
  import opened AllocationWork

  // ----- the measure -----

  /** Members still waiting to be allocated. */
  function Queued(db: Db): set<nat> {
    set m | 0 <= m < |db.members| && db.members[m].status == PendingAllocation
  }

  /** Every member of the task is still queued. */
  ghost predicate Clear(db: Db, t: nat) {
    t < |db.tasks| && forall m | m in db.tasks[t].members :: m in Queued(db)
  }

  /** Steps a task may still cause, five to one of a worker's. */
  function Weight(t: Task): nat {
    if t.generation > MAX_GENERATION then 0
    else
      match t.status
      case TaskPending => 5 * (2 * MAX_GENERATION + 2 - 2 * t.generation)
      case TaskRunning => 5 * (2 * MAX_GENERATION + 1 - 2 * t.generation)
      case _ => 0
  }

  function Phase(w: Worker): nat {
    match w
    case Holding(_) => 4
    case Waiting4Kernel(_, _) => 3
    case Accepted(_, _, _) => 2
    case Aborting(_, _) => 1
  }

  datatype Token = TaskToken(task: nat, index: nat) | WorkerToken(worker: nat, index: nat)

  ghost predicate HasToken(s: Sys, clear: bool, k: Token) {
    match k
    case TaskToken(t, n) => t < |s.db.tasks| && n < Weight(s.db.tasks[t]) && Clear(s.db, t) == clear
    case WorkerToken(w, n) => w in s.workers && n < Phase(s.workers[w]) && Clear(s.db, s.workers[w].ticket.task) == clear
  }

  /** The remaining steps of tasks and workers, apart for clear tasks and for the others. */
  ghost function Tokens(s: Sys, clear: bool): set<Token> {
    (set t, n | 0 <= t < |s.db.tasks| && 0 <= n < Weight(s.db.tasks[t]) && Clear(s.db, t) == clear :: TaskToken(t, n))
    + (set w, n | w in s.workers && 0 <= n < Phase(s.workers[w]) && Clear(s.db, s.workers[w].ticket.task) == clear :: WorkerToken(w, n))
  }

  lemma TokensAre(s: Sys, clear: bool)
    ensures forall k :: k in Tokens(s, clear) <==> HasToken(s, clear, k)
  {
    hide Weight, Phase, Clear;
  }

  /** Items a future batch may start from: pending and not part of a live task, or waiting on inputs
      that have changed. */
  predicate Free(db: Db, i: nat)
    requires i < |db.items|
  {
    var it := db.items[i];
    || (it.status == ItemPending && !(it.task.Some? && it.task.value < |db.tasks| && Live(db.tasks[it.task.value])))
    || (it.status == ItemWaiting && it.member < |db.members| && db.members[it.member].scope < |db.scopes|
        && it.observed < Revision(db, db.members[it.member].scope))
  }

  function FreeItems(db: Db): set<nat> { set i | 0 <= i < |db.items| && Free(db, i) }

  /** The lexicographic order: queued members, steps of tasks that are not clear, free items, steps
      of clear tasks. */
  ghost predicate Below(b: Sys, a: Sys) {
    || |Queued(b.db)| < |Queued(a.db)|
    || (|Queued(b.db)| == |Queued(a.db)| && |Tokens(b, false)| < |Tokens(a, false)|)
    || (|Queued(b.db)| == |Queued(a.db)| && |Tokens(b, false)| == |Tokens(a, false)| && |FreeItems(b.db)| < |FreeItems(a.db)|)
    || (|Queued(b.db)| == |Queued(a.db)| && |Tokens(b, false)| == |Tokens(a, false)| && |FreeItems(b.db)| == |FreeItems(a.db)|
        && |Tokens(b, true)| < |Tokens(a, true)|)
  }

  lemma SmallerSet<T>(a: set<T>, b: set<T>)
    requires a <= b
    ensures |a| <= |b| && (a != b ==> |a| < |b|)
  {
    assert b == a + (b - a);
    if a != b {
      assert b - a != {};
    }
  }

  /** How a step gets below: by shrinking the sets in order, some set strictly. */
  lemma BelowBy(a: Sys, b: Sys)
    requires Queued(b.db) <= Queued(a.db)
    requires Queued(b.db) == Queued(a.db) ==> Tokens(b, false) <= Tokens(a, false)
    requires Queued(b.db) == Queued(a.db) && Tokens(b, false) == Tokens(a, false) ==>
               FreeItems(b.db) <= FreeItems(a.db) && (FreeItems(b.db) != FreeItems(a.db) || |Tokens(b, true)| < |Tokens(a, true)|)
    ensures Below(b, a)
  {
    hide Queued, Tokens, FreeItems;
    SmallerSet(Queued(b.db), Queued(a.db));
    if Queued(b.db) == Queued(a.db) {
      SmallerSet(Tokens(b, false), Tokens(a, false));
      if Tokens(b, false) == Tokens(a, false) {
        SmallerSet(FreeItems(b.db), FreeItems(a.db));
      }
    }
  }

  // ----- tokens -----

  /** Tasks keep their members and weigh no more, workers are no more and no further from the end. */
  ghost predicate Lighter(a: Sys, b: Sys) {
    && |b.db.tasks| == |a.db.tasks| && |b.db.members| == |a.db.members|
    && (forall t | 0 <= t < |a.db.tasks| ::
          b.db.tasks[t].members == a.db.tasks[t].members && Weight(b.db.tasks[t]) <= Weight(a.db.tasks[t]))
    && (forall w | w in b.workers ::
          w in a.workers && b.workers[w].ticket.task == a.workers[w].ticket.task && Phase(b.workers[w]) <= Phase(a.workers[w]))
  }

  lemma ClearSame(a: Db, b: Db, t: nat)
    requires Queued(b) == Queued(a) && t < |a.tasks| && t < |b.tasks| && b.tasks[t].members == a.tasks[t].members
    ensures Clear(b, t) == Clear(a, t)
  {
    hide Queued;
  }

  lemma TokensShrink(a: Sys, b: Sys, clear: bool)
    requires Lighter(a, b) && Queued(b.db) == Queued(a.db)
    ensures Tokens(b, clear) <= Tokens(a, clear)
  {
    hide Weight, Phase, Clear, Tokens, Queued;
    TokensAre(a, clear);
    TokensAre(b, clear);
    forall k | k in Tokens(b, clear) ensures k in Tokens(a, clear) {
      match k
      case TaskToken(t, n) => ClearSame(a.db, b.db, t);
      case WorkerToken(w, n) =>
        var t := b.workers[w].ticket.task;
        if t < |a.db.tasks| {
          ClearSame(a.db, b.db, t);
        } else {
          NotClear(a.db, t);
          NotClear(b.db, t);
        }
    }
  }

  lemma NotClear(db: Db, t: nat)
    requires t >= |db.tasks|
    ensures !Clear(db, t)
  {}

  /** A worker that moved on has spent a token. */
  lemma WorkerSpends(a: Sys, b: Sys, w: nat)
    requires Lighter(a, b) && Queued(b.db) == Queued(a.db)
    requires w in a.workers && (w !in b.workers || Phase(b.workers[w]) < Phase(a.workers[w]))
    ensures var c := Clear(a.db, a.workers[w].ticket.task);
            Tokens(b, c) < Tokens(a, c)
  {
    hide Weight, Clear, Tokens, Queued, Lighter;
    var c := Clear(a.db, a.workers[w].ticket.task);
    TokensShrink(a, b, c);
    TokensAre(a, c);
    TokensAre(b, c);
    var k := WorkerToken(w, Phase(a.workers[w]) - 1);
    assert k in Tokens(a, c) && k !in Tokens(b, c);
  }

  lemma TaskSpends(a: Sys, b: Sys, t: nat)
    requires Lighter(a, b) && Queued(b.db) == Queued(a.db)
    requires t < |a.db.tasks| && Weight(b.db.tasks[t]) < Weight(a.db.tasks[t])
    ensures Tokens(b, Clear(a.db, t)) < Tokens(a, Clear(a.db, t))
  {
    hide Clear, Tokens, Queued;
    var c := Clear(a.db, t);
    TokensShrink(a, b, c);
    TokensAre(a, c);
    TokensAre(b, c);
    var k := TaskToken(t, Weight(a.db.tasks[t]) - 1);
    assert k in Tokens(a, c) && k !in Tokens(b, c);
  }

  /** A pending task becomes running and a new worker holds it. */
  ghost predicate HandsOver(a: Sys, b: Sys, t: nat, w: nat) {
    && t < |a.db.tasks| && |b.db.tasks| == |a.db.tasks| && b.db.members == a.db.members
    && a.db.tasks[t].status == TaskPending && a.db.tasks[t].generation <= MAX_GENERATION
    && b.db.tasks == a.db.tasks[t := a.db.tasks[t].(status := TaskRunning, workerToken := b.db.tasks[t].workerToken)]
    && w !in a.workers && b.workers.Keys == a.workers.Keys + {w} && b.workers[w].Holding? && b.workers[w].ticket.task == t
    && (forall v | v in a.workers :: b.workers[v] == a.workers[v])
  }

  function Spent(t: nat, x: nat): (r: set<Token>)
    ensures |r| == 5
  {
    {TaskToken(t, x), TaskToken(t, x + 1), TaskToken(t, x + 2), TaskToken(t, x + 3), TaskToken(t, x + 4)}
  }

  function Added(w: nat): (r: set<Token>)
    ensures |r| == 4
  {
    {WorkerToken(w, 0), WorkerToken(w, 1), WorkerToken(w, 2), WorkerToken(w, 3)}
  }

  lemma TradeSmaller<T>(a: set<T>, b: set<T>, spent: set<T>, added: set<T>)
    requires spent <= a && b <= (a - spent) + added && |added| < |spent|
    ensures |b| < |a|
  {
    var rest := a - spent;
    SmallerSet(b, rest + added);
    assert a == rest + spent && rest * spent == {};
    assert rest + added == rest + (added - rest);
    SmallerSet(added - rest, added);
  }

  lemma ClearAfterGrant(a: Sys, b: Sys, t: nat, w: nat, u: nat)
    requires HandsOver(a, b, t, w)
    ensures Clear(b.db, u) == Clear(a.db, u)
  {
    assert Queued(b.db) == Queued(a.db);
    if u < |a.db.tasks| {
      ClearSame(a.db, b.db, u);
    } else {
      NotClear(a.db, u);
      NotClear(b.db, u);
    }
  }

  lemma WeightAfterGrant(a: Sys, b: Sys, t: nat, w: nat, u: nat)
    requires HandsOver(a, b, t, w) && u < |a.db.tasks|
    ensures Weight(a.db.tasks[u]) == Weight(b.db.tasks[u]) + if u == t then 5 else 0
  {}

  lemma TokenAfterGrant(a: Sys, b: Sys, t: nat, w: nat, c: bool, k: Token)
    requires HandsOver(a, b, t, w) && HasToken(b, c, k)
    ensures c == Clear(a.db, t) ==> (HasToken(a, c, k) && k !in Spent(t, Weight(b.db.tasks[t]))) || k in Added(w)
    ensures c != Clear(a.db, t) ==> HasToken(a, c, k)
  {
    hide Clear, Weight;
    match k
    case TaskToken(u, n) =>
      ClearAfterGrant(a, b, t, w, u);
      WeightAfterGrant(a, b, t, w, u);
    case WorkerToken(v, n) =>
      ClearAfterGrant(a, b, t, w, b.workers[v].ticket.task);
  }

  lemma TokensAfterGrant(a: Sys, b: Sys, t: nat, w: nat, c: bool)
    requires HandsOver(a, b, t, w)
    ensures var spent, added := Spent(t, Weight(b.db.tasks[t])), Added(w);
            if c == Clear(a.db, t) then spent <= Tokens(a, c) && Tokens(b, c) <= (Tokens(a, c) - spent) + added
            else Tokens(b, c) <= Tokens(a, c)
  {
    TokensAre(a, c);
    TokensAre(b, c);
    WeightAfterGrant(a, b, t, w, t);
    hide Clear, Tokens, HasToken, Weight;
    forall k | k in Tokens(b, c)
      ensures c == Clear(a.db, t) ==> (k in Tokens(a, c) && k !in Spent(t, Weight(b.db.tasks[t]))) || k in Added(w)
      ensures c != Clear(a.db, t) ==> k in Tokens(a, c)
    {
      TokenAfterGrant(a, b, t, w, c, k);
    }
    if c == Clear(a.db, t) {
      forall k | k in Spent(t, Weight(b.db.tasks[t])) ensures k in Tokens(a, c) {
        SpentWasHeld(a, b, t, w, k);
      }
    }
  }

  lemma SpentWasHeld(a: Sys, b: Sys, t: nat, w: nat, k: Token)
    requires HandsOver(a, b, t, w) && k in Spent(t, Weight(b.db.tasks[t]))
    ensures HasToken(a, Clear(a.db, t), k)
  {
    hide Clear, Weight;
    WeightAfterGrant(a, b, t, w, t);
  }

  /** Handing a pending task to a new worker costs five tokens and brings four. */
  lemma GrantSpends(a: Sys, b: Sys, t: nat, w: nat)
    requires HandsOver(a, b, t, w)
    ensures Tokens(b, !Clear(a.db, t)) <= Tokens(a, !Clear(a.db, t))
    ensures |Tokens(b, Clear(a.db, t))| < |Tokens(a, Clear(a.db, t))|
  {
    hide Clear, Tokens, Weight, Spent, Added;
    var c := Clear(a.db, t);
    TokensAfterGrant(a, b, t, w, c);
    TokensAfterGrant(a, b, t, w, !c);
    TradeSmaller(Tokens(a, c), Tokens(b, c), Spent(t, Weight(b.db.tasks[t])), Added(w));
  }

  // ----- what a worker's transactions do to the measure -----

  /** Tasks keep their members and weigh no more; no member is queued anew; and if the queue stays
      while the task t is clear, no item becomes free. */
  ghost predicate Calm(a: Db, b: Db, t: nat) {
    && |b.tasks| == |a.tasks| && |b.members| == |a.members| && Queued(b) <= Queued(a)
    && (forall u | 0 <= u < |a.tasks| :: b.tasks[u].members == a.tasks[u].members && Weight(b.tasks[u]) <= Weight(a.tasks[u]))
    && (Queued(b) == Queued(a) && Clear(a, t) ==> FreeItems(b) <= FreeItems(a))
  }

  lemma CalmNot(db: Db, t: nat)
    ensures Calm(db, db, t)
  {}

  /** Items cancelled, nothing else: no item becomes free. */
  lemma {:induction false} NothingRestated(db: Db, ids: seq<nat>, n: nat)
    requires n <= |db.members| && forall m | 0 <= m < n :: !Restated(db, ids, m)
    ensures CleanChanges(db, ids, n) == []
  {
    hide Restated;
    if n > 0 {
      NothingRestated(db, ids, n - 1);
    }
  }

  lemma RestatedLeavesQueue(db: Db, ids: seq<nat>, m: nat)
    requires m < |db.members|
    ensures Restated(db, ids, m) ==> m in ids && m !in Queued(Clean(db, ids))
  {
    hide Valid, Displaced, CleanChanges, Update;
  }

  lemma CleanCalm(db: Db, tk: Ticket)
    requires tk.task < |db.tasks| && tk.members == db.tasks[tk.task].members
    ensures Calm(db, Clean(db, tk.members), tk.task)
    ensures Queued(Clean(db, tk.members)) == Queued(db) && Clear(db, tk.task) ==> Clean(db, tk.members).changes == db.changes
  {
    hide Valid, Displaced, CleanChanges, TouchedScopes;
    var next := Clean(db, tk.members);
    assert Queued(next) <= Queued(db);
    if Queued(next) == Queued(db) && Clear(db, tk.task) {
      forall m | 0 <= m < |db.members| ensures !Restated(db, tk.members, m) {
        RestatedLeavesQueue(db, tk.members, m);
      }
      NothingRestated(db, tk.members, |db.members|);
      assert next.members == db.members;
      assert next.changes == db.changes;
      forall i | i in FreeItems(next) ensures i in FreeItems(db) {
        assert Free(next, i) ==> next.items[i] == db.items[i];
      }
    }
  }

  /** A running task that ends leaves no pending item behind. */
  lemma EndingFreesNothing(a: Db, b: Db, t: nat)
    requires ItemsOk(a) && t < |a.tasks| && a.tasks[t].status == TaskRunning
    requires b.items == a.items && b.members == a.members && b.changes == a.changes && |b.scopes| == |a.scopes|
    requires forall s | 0 <= s < |a.scopes| :: b.scopes[s].revision == a.scopes[s].revision
    requires |b.tasks| == |a.tasks| && forall u | 0 <= u < |a.tasks| && u != t :: b.tasks[u] == a.tasks[u]
    ensures FreeItems(b) <= FreeItems(a)
  {
    hide LastChange;
    forall i | i in FreeItems(b) ensures i in FreeItems(a) {
      assert ItemOk(a, a.items[i]);
      if a.members[a.items[i].member].scope < |a.scopes| {
        assert Revision(b, a.members[a.items[i].member].scope) == Revision(a, a.members[a.items[i].member].scope);
      }
    }
  }

  lemma CompleteCalm(db: Db, tk: Ticket)
    requires ItemsOk(db) && TicketOk(db, tk) && Fenced(db, tk) && tk.scope < |db.scopes|
    ensures Calm(db, Complete(db, tk), tk.task)
  {
    hide FreeItems, ItemsOk, Clear;
    EndingFreesNothing(db, Complete(db, tk), tk.task);
    assert Queued(Complete(db, tk)) == Queued(db);
  }

  lemma CalmOn(a: Db, b: Db, c: Db, t: nat)
    requires Calm(a, b, t) && Calm(b, c, t) && b.tasks == a.tasks
    ensures Calm(a, c, t)
  {
    hide Queued, FreeItems, Weight;
  }

  lemma ProcessCalm(db: Db, tk: Ticket, pin: nat, authorized: bool)
    requires Good(db) && TicketOk(db, tk)
    ensures Calm(db, Process(db, tk, pin, authorized).0, tk.task)
  {
    hide Clean, Build, Canonical, Revision, Complete, CleanBlocked, Buildable, Calm, RowsOk, TasksOk, ItemsOk, SequencesOk, Evolves;
    CalmNot(db, tk.task);
    if LeaseHeld(db, tk) && authorized && Buildable(db, tk) && !(tk.mode == Execute && CleanBlocked(db, tk.members)) {
      var after := if tk.mode == Execute then Clean(db, tk.members) else db;
      if tk.mode == Execute {
        CleanCalm(db, tk);
        CleanShape(db, tk.members);
        CleanKeeps(db, tk.members);
      }
      TicketSurvives(db, after, tk);
      CompleteCalm(after, tk);
      CalmOn(db, after, Complete(after, tk), tk.task);
    }
  }

  // ----- commits -----

  lemma {:induction false} WaitOnly(db: Db, tk: Ticket, ds: seq<Decision>)
    requires tk.mode == Execute && Picks(ds) == [] && ApplyDecisions(db, tk, ds).Some?
    ensures var next := ApplyDecisions(db, tk, ds).value;
            && next == db.(items := next.items) && |next.items| == |db.items|
            && forall i | 0 <= i < |db.items| ::
                 next.items[i] == db.items[i] || (StillLeased(db.items[i], tk.task) && next.items[i] == db.items[i].(status := ItemWaiting))
  {
    if ds != [] {
      var n := |ds| - 1;
      assert ds == ds[..n] + [ds[n]];
      PicksSnoc(ds[..n], ds[n]);
      WaitOnly(db, tk, ds[..n]);
    }
  }

  /** A commit that assigns somebody takes that member off the queue. */
  lemma AssigningShrinksQueue(db: Db, picks: seq<Decision>, next: Db)
    requires LoopDone(db, picks, next) && picks != []
    requires forall d | d in picks :: 0 <= d.memberId < |db.members| && d.memberId in Queued(db)
    ensures Queued(next) < Queued(db)
  {
    hide PickOf;
    assert Queued(next) <= Queued(db);
    var d := picks[|picks| - 1];
    PickOfLast(db.members, picks);
    assert d in picks && d.memberId in Queued(db);
    assert next.members[d.memberId] == AllocatedRow(db.members, picks, d.memberId);
    assert d.memberId !in Queued(next);
  }

  lemma PickOfLast(members: seq<MemberRow>, picks: seq<Decision>)
    requires picks != [] && 0 <= picks[|picks| - 1].memberId < |members|
    ensures PickOf(members, picks, members[picks[|picks| - 1].memberId].candidate) == Some(picks[|picks| - 1])
  {}

  /** A wait-only commit: nothing it touches is stale afterwards, and no change is logged. */
  lemma WaitingFreesNothing(db: Db, tk: Ticket, mid: Db, next: Db)
    requires TasksOk(db) && ItemsOk(db) && TicketOk(db, tk) && Fenced(db, tk) && tk.scope < |db.scopes|
    requires |mid.items| == |db.items| && forall i | 0 <= i < |db.items| ::
      mid.items[i] == db.items[i] || (StillLeased(db.items[i], tk.task) && mid.items[i] == db.items[i].(status := ItemWaiting))
    requires next.items == Update(mid.items, ObserveItem(tk.task, Revision(db, tk.scope)))
    requires next.members == db.members && next.changes == db.changes && |next.scopes| == |db.scopes|
    requires forall s | 0 <= s < |db.scopes| :: next.scopes[s].revision == db.scopes[s].revision
    requires |next.tasks| == |db.tasks| && forall u | 0 <= u < |db.tasks| && u != tk.task :: next.tasks[u] == db.tasks[u]
    ensures FreeItems(next) <= FreeItems(db)
  {
    hide LastChange, TasksOk;
    forall i | i in FreeItems(next) ensures i in FreeItems(db) {
      assert ItemOk(db, db.items[i]);
      var sid := db.members[db.items[i].member].scope;
      if sid < |db.scopes| {
        assert Revision(next, sid) == Revision(db, sid);
      }
      if db.items[i].task == Some(tk.task) {
        TaskMembersInScope(db, tk.task);
        assert sid == tk.scope;
      }
    }
  }

  lemma SettleShape(db: Db, tk: Ticket, top: int)
    requires tk.scope < |db.scopes| && tk.task < |db.tasks| && (tk.task, tk.generation) in db.plans
    ensures var next := Settle(db, tk, top);
            && next.members == db.members && next.changes == db.changes && |next.scopes| == |db.scopes|
            && |next.tasks| == |db.tasks| && next.tasks[tk.task] == db.tasks[tk.task].(status := TaskCompleted)
            && (forall u | 0 <= u < |db.tasks| && u != tk.task :: next.tasks[u] == db.tasks[u])
            && (top <= 0 || tk.mode == Simulate ==> forall s | 0 <= s < |db.scopes| :: next.scopes[s].revision == db.scopes[s].revision)
            && (top <= 0 && tk.mode == Execute ==> next.items == Update(db.items, ObserveItem(tk.task, Revision(db, tk.scope))))
  {
    hide Update, ReturnItem, ObserveItem;
  }

  lemma ExecutionCalm(db: Db, tk: Ticket, q: Request, ds: seq<Decision>, authorized: bool)
    requires Good(db) && TicketOk(db, tk) && RequestOk(db, tk, q) && ds == Plan(q.snapshot) && tk.mode == Execute
    requires Commit(db, tk, q, ds, authorized).1.CommitDone?
    ensures Calm(db, Commit(db, tk, q, ds, authorized).0, tk.task)
  {
    hide RowsOk, TasksOk, ItemsOk, SequencesOk, Plan, Build, Canonical, WellKeyed, Executable, LeasedCovered, ApplyDecisions;
    hide Picks, Numbered, Buildable, MaxSequence, LoopDone, Settle, FreeItems, Clear, Revision, Queued;
    CommitPlansCurrentState(db, tk, q, ds);
    LoopPlaces(db, tk, ds);
    var applied := ApplyDecisions(db, tk, ds).value;
    SettleShape(applied, tk, MaxSequence(ds));
    var next := Settle(applied, tk, MaxSequence(ds));
    QueuedByMembers(applied, next);
    WeightOfDone(db, next, tk.task);
    if Picks(ds) != [] {
      forall d | d in Picks(ds) ensures 0 <= d.memberId < |db.members| && d.memberId in Queued(db) {
        PicksAreEligible(db, tk, q.snapshot.at, Revision(db, tk.scope), d);
        QueuedIs(db, d.memberId);
      }
      AssigningShrinksQueue(db, Picks(ds), applied);
    } else {
      WaitOnly(db, tk, ds);
      QueuedByMembers(db, applied);
      NoPicksNoTop(ds);
      RevisionSame(db, applied, tk.scope);
      WaitingFreesNothing(db, tk, applied, next);
    }
  }

  lemma RevisionSame(a: Db, b: Db, sid: nat)
    requires sid < |a.scopes| && b.scopes == a.scopes && b.changes == a.changes
    ensures Revision(b, sid) == Revision(a, sid)
  {}

  lemma NoPicksNoTop(ds: seq<Decision>)
    requires Picks(ds) == []
    ensures MaxSequence(ds) == 0
  {
    TopOfPicks(ds, 1);
  }

  lemma QueuedByMembers(a: Db, b: Db)
    requires a.members == b.members
    ensures Queued(a) == Queued(b)
  {}

  lemma QueuedIs(db: Db, m: int)
    requires 0 <= m < |db.members| && db.members[m].status == PendingAllocation
    ensures m in Queued(db)
  {}

  lemma WeightOfDone(a: Db, b: Db, t: nat)
    requires |a.tasks| == |b.tasks| && t < |a.tasks| && b.tasks[t].status == TaskCompleted && b.tasks[t].members == a.tasks[t].members
    requires forall u | 0 <= u < |a.tasks| && u != t :: b.tasks[u] == a.tasks[u]
    ensures forall u | 0 <= u < |a.tasks| :: b.tasks[u].members == a.tasks[u].members && Weight(b.tasks[u]) <= Weight(a.tasks[u])
  {}

  lemma SimulationCalm(db: Db, tk: Ticket, top: int)
    requires Good(db) && TicketOk(db, tk) && Fenced(db, tk) && tk.scope < |db.scopes|
    requires (tk.task, tk.generation) in db.plans && tk.mode == Simulate
    ensures Calm(db, Settle(db, tk, top), tk.task)
  {
    hide RowsOk, TasksOk, SequencesOk, FreeItems, Clear, Queued, Revision;
    var next := Settle(db, tk, top);
    SettleShape(db, tk, top);
    QueuedByMembers(db, next);
    WeightOfDone(db, next, tk.task);
    forall i | 0 <= i < |db.items| ensures next.items[i] == db.items[i] {
      assert ItemOk(db, db.items[i]);
    }
    assert next.items == db.items;
    EndingFreesNothing(db, next, tk.task);
  }

  lemma CommitCalm(db: Db, tk: Ticket, q: Request, ds: seq<Decision>, authorized: bool)
    requires Good(db) && TicketOk(db, tk) && RequestOk(db, tk, q) && ds == Plan(q.snapshot)
    ensures Calm(db, Commit(db, tk, q, ds, authorized).0, tk.task)
  {
    hide RowsOk, TasksOk, ItemsOk, SequencesOk, Plan, Build, Canonical, WellKeyed, LeasedCovered, ApplyDecisions;
    hide Buildable, MaxSequence, Settle, Calm, Revision;
    CalmNot(db, tk.task);
    if Commit(db, tk, q, ds, authorized).1.CommitDone? {
      if tk.mode == Simulate {
        SimulationAppliesNothing(db, tk, ds);
        SimulationCalm(db, tk, MaxSequence(ds));
      } else {
        ExecutionCalm(db, tk, q, ds, authorized);
      }
    }
  }

  lemma FailureCalm(db: Db, tk: Ticket, failure: Failure)
    requires Good(db) && TicketOk(db, tk)
    ensures Calm(db, FinishFailure(db, tk, failure), tk.task)
  {
    hide RowsOk, TasksOk, SequencesOk, DropPlans, LastChange;
    var next := FinishFailure(db, tk, failure);
    assert Queued(next) == Queued(db);
    forall i | i in FreeItems(next) ensures i in FreeItems(db) {
      assert ItemOk(db, db.items[i]);
      if db.members[db.items[i].member].scope < |db.scopes| {
        assert Revision(next, db.members[db.items[i].member].scope) == Revision(db, db.members[db.items[i].member].scope);
      }
    }
  }

  // ----- claims -----

  /** What a claim does before it hands out a task: nothing is queued, freed or made heavier. */
  ghost predicate Eased(a: Db, b: Db) {
    && |b.tasks| == |a.tasks| && b.members == a.members && |b.items| == |a.items|
    && (forall u | 0 <= u < |a.tasks| :: b.tasks[u].members == a.tasks[u].members && Weight(b.tasks[u]) <= Weight(a.tasks[u]))
    && FreeItems(b) <= FreeItems(a)
  }

  lemma RecoverEases(db: Db, sid: nat)
    requires TasksOk(db) && ItemsOk(db) && sid < |db.scopes|
    ensures Eased(db, Recover(db, sid))
    ensures forall t | 0 <= t < |db.tasks| && db.tasks[t].scope == sid && db.tasks[t].status == TaskRunning ::
              Weight(Recover(db, sid).tasks[t]) < Weight(db.tasks[t])
  {
    hide LastChange;
    var r := Recover(db, sid);
    forall t | 0 <= t < |db.tasks|
      ensures r.tasks[t].members == db.tasks[t].members && Weight(r.tasks[t]) <= Weight(db.tasks[t])
      ensures db.tasks[t].scope == sid && db.tasks[t].status == TaskRunning ==> Weight(r.tasks[t]) < Weight(db.tasks[t])
    {
      assert TaskOk(db, db.tasks[t]);
    }
    forall i | i in FreeItems(r) ensures i in FreeItems(db) {
      RecoverFreesNothing(db, sid, i);
    }
  }

  lemma RecoverFreesNothing(db: Db, sid: nat, i: nat)
    requires ItemsOk(db) && sid < |db.scopes| && i < |db.items|
    ensures Free(Recover(db, sid), i) ==> Free(db, i)
  {
    hide LastChange;
    var r := Recover(db, sid);
    assert ItemOk(db, db.items[i]);
    var home := db.members[db.items[i].member].scope;
    if home < |db.scopes| {
      assert Revision(r, home) == Revision(db, home);
    }
  }

  lemma WakeEases(db: Db, sid: nat)
    requires sid < |db.scopes|
    ensures Eased(db, Wake(db, sid))
  {
    hide LastChange;
    var w := Wake(db, sid);
    forall i | i in FreeItems(w) ensures i in FreeItems(db) {
      WakeFreesNothing(db, sid, i);
    }
  }

  lemma WakeFreesNothing(db: Db, sid: nat, i: nat)
    requires sid < |db.scopes| && i < |db.items|
    ensures Free(Wake(db, sid), i) ==> Free(db, i)
  {
    hide LastChange, HasActive, NewestItem;
    var w := Wake(db, sid);
    forall s | 0 <= s < |db.scopes| ensures Revision(w, s) == Revision(db, s) {}
  }

  lemma EasedOn(a: Db, b: Db, c: Db)
    requires Eased(a, b) && Eased(b, c)
    ensures Eased(a, c)
  {
    hide FreeItems, Weight;
  }

  lemma GrantFreesNothing(db: Db, sid: nat, t: nat)
    requires ItemsOk(db) && sid < |db.scopes| && t < |db.tasks| && Claims(db.tasks[t], sid, db.scopes[sid].paused)
    ensures FreeItems(Grant(db, sid, t).0) <= FreeItems(db)
  {
    hide LastChange;
    var g := Grant(db, sid, t).0;
    forall i | i in FreeItems(g) ensures i in FreeItems(db) {
      assert ItemOk(db, db.items[i]);
      var home := db.members[db.items[i].member].scope;
      if home < |db.scopes| {
        assert Revision(g, home) == Revision(db, home);
      }
    }
  }

  /** Creating the batch's task and handing it out: old items are freed by neither. */
  lemma CreateFreesNothing(db: Db, sid: nat, ids: seq<nat>)
    requires RowsOk(db) && ItemsOk(db) && sid < |db.scopes| && !db.scopes[sid].paused
    requires CreateTask(db, sid, ids, Execute, None, None).1 == Created(|db.tasks|)
    ensures var c := CreateTask(db, sid, ids, Execute, None, None).0;
            && |db.items| <= |c.items|
            && (forall i | 0 <= i < |db.items| ::
                  c.items[i].status == db.items[i].status && c.items[i].member == db.items[i].member && (Free(c, i) ==> Free(db, i)))
            && (forall i | |db.items| <= i < |c.items| :: !Free(c, i))
  {
    hide FindKey, RowsOk, LastChange, Attached;
    var c := CreateTask(db, sid, ids, Execute, None, None).0;
    var t := |db.tasks|;
    CreatedTask(db, sid, ids, Execute, None, None);
    InsertedItems(db.items, db.quals, ids, t);
    BatchSize(db, sid, ids);
    assert c.items == Update(InsertItems(db.items, db.quals, ids, t), AttachItem(ids, t));
    assert Live(c.tasks[t]);
    forall i | 0 <= i < |db.items| ensures Free(c, i) ==> Free(db, i) {
      assert ItemOk(db, db.items[i]) && InsertItems(db.items, db.quals, ids, t)[i] == db.items[i];
      AttachedTaskExists(db, db.items[i]);
      CreateKeepsBound(db, c, i);
    }
  }

  lemma AttachedTaskExists(db: Db, i: Item)
    requires ItemOk(db, i)
    ensures i.task.Some? ==> i.task.value < |db.tasks|
  {}

  lemma CreateKeepsBound(db: Db, c: Db, i: nat)
    requires i < |db.items| && i < |c.items| && |db.tasks| < |c.tasks| && c.tasks[..|db.tasks|] == db.tasks
    requires c.members == db.members && c.scopes == db.scopes && c.changes == db.changes
    requires c.items[i] == db.items[i] || (c.items[i].status == ItemPending && c.items[i] == db.items[i].(task := Some(|db.tasks|)))
    requires Live(c.tasks[|db.tasks|]) && (db.items[i].task.Some? ==> db.items[i].task.value < |db.tasks|)
    ensures Free(c, i) ==> Free(db, i)
  {
    hide LastChange;
    if db.items[i].member < |db.members| && db.members[db.items[i].member].scope < |db.scopes| {
      RevisionSame(db, c, db.members[db.items[i].member].scope);
    }
    if db.items[i].task.Some? {
      assert c.tasks[db.items[i].task.value] == db.tasks[db.items[i].task.value];
    }
  }

  lemma {:induction false} InsertedItems(items: seq<Item>, quals: seq<Qualification>, ids: seq<nat>, task: nat)
    ensures var r := InsertItems(items, quals, ids, task);
            && |items| <= |r| && r[..|items|] == items
            && forall i | |items| <= i < |r| :: r[i].status == ItemPending && r[i].task == Some(task)
  {
    if ids != [] {
      InsertedItems(items, quals, ids[..|ids| - 1], task);
    }
  }

  /** Whoever heads the line holds a free item: no live task of the scope can own it. */
  lemma HeadOfLineIsFree(db: Db, sid: nat, i: nat)
    requires TasksOk(db) && ItemsOk(db) && sid < |db.scopes| && i < |db.items|
    requires NothingClaimable(db.tasks, sid, false) && NoneRunning(db, sid)
    requires db.items[i].status == ItemPending && QueuedMember(db, sid, db.items[i].member)
    ensures Free(db, i)
  {
    hide Revision;
    assert ItemOk(db, db.items[i]);
    if db.items[i].task.Some? {
      var t := db.items[i].task.value;
      TaskMembersInScope(db, t);
      assert db.tasks[t].scope == sid;
      assert !Claims(db.tasks[t], sid, false);
    }
  }

  lemma BatchHead(db: Db, sid: nat) returns (i: nat)
    requires NextBatch(db, sid) != []
    ensures i < |db.items| && db.items[i].status == ItemPending && QueuedMember(db, sid, db.items[i].member)
    ensures db.items[i].member in NextBatch(db, sid)
  {
    hide NextBatch, QueuedMember;
    BatchInScope(db, sid);
    var m := NextBatch(db, sid)[0];
    assert m in NextBatch(db, sid) && InLine(db, sid, m);
    var j :| 0 <= j < |db.items| && db.items[j].member == m && db.items[j].status == ItemPending;
    i := j;
  }

  lemma BatchUsesFreeItems(w: Db, sid: nat, ids: seq<nat>)
    requires Good(w) && sid < |w.scopes| && !w.scopes[sid].paused
    requires NothingClaimable(w.tasks, sid, false) && NoneRunning(w, sid) && ids == NextBatch(w, sid) && ids != []
    requires CreateTask(w, sid, ids, Execute, None, None).1 == Created(|w.tasks|)
    ensures FreeItems(Grant(CreateTask(w, sid, ids, Execute, None, None).0, sid, |w.tasks|).0) < FreeItems(w)
  {
    hide RowsOk, TasksOk, ItemsOk, SequencesOk, CreateTask, Evolves, NextBatch, Free, InLine, QueuedMember;
    var c := CreateTask(w, sid, ids, Execute, None, None).0;
    BatchInScope(w, sid);
    CreateKeeps(w, sid, ids, Execute, None, None);
    CreateShape(w, sid, ids);
    CreateFreesNothing(w, sid, ids);
    GrantFreesNothing(c, sid, |w.tasks|);
    assert FreeItems(c) <= FreeItems(w);
    var i := BatchHead(w, sid);
    HeadOfLineIsFree(w, sid, i);
    BatchSize(w, sid, ids);
    LeasedNotFree(c, sid, |w.tasks|, i);
    assert i in FreeItems(w) && i !in FreeItems(Grant(c, sid, |w.tasks|).0);
  }

  lemma LeasedNotFree(c: Db, sid: nat, t: nat, i: nat)
    requires sid < |c.scopes| && t < |c.tasks| && c.tasks[t].mode == Execute && i < |c.items|
    requires c.items[i].status == ItemPending && c.items[i].member in c.tasks[t].members
    ensures i < |Grant(c, sid, t).0.items| && !Free(Grant(c, sid, t).0, i)
  {
    hide Revision;
  }

  /** The new batch's task is clear: all its members are queued. */
  lemma BatchIsClear(w: Db, sid: nat, ids: seq<nat>, c: Db)
    requires ids == NextBatch(w, sid) && c.members == w.members && |c.tasks| == |w.tasks| + 1 && c.tasks[|w.tasks|].members == ids
    ensures Clear(c, |w.tasks|)
  {
    hide NextBatch;
    BatchInScope(w, sid);
    forall m | m in ids ensures m in Queued(c) {
      InLineMeans(w, sid, m);
    }
  }

  /** Tokens of tasks that are not clear after a batch was formed. */
  lemma BatchTokens(a: Sys, b: Sys, w: nat)
    requires |b.db.tasks| == |a.db.tasks| + 1 && b.db.members == a.db.members
    requires forall t | 0 <= t < |a.db.tasks| :: b.db.tasks[t] == a.db.tasks[t]
    requires Clear(b.db, |a.db.tasks|)
    requires w !in a.workers && b.workers.Keys == a.workers.Keys + {w} && b.workers[w].ticket.task == |a.db.tasks|
    requires forall v | v in a.workers :: b.workers[v] == a.workers[v] && a.workers[v].ticket.task < |a.db.tasks|
    ensures Tokens(b, false) <= Tokens(a, false)
  {
    hide Clear, Tokens, Weight, Phase;
    TokensAre(a, false);
    TokensAre(b, false);
    forall t | 0 <= t < |a.db.tasks| ensures Clear(b.db, t) == Clear(a.db, t) {
      assert Queued(b.db) == Queued(a.db);
      ClearSame(a.db, b.db, t);
    }
  }

  lemma EasedTokens(s: Sys, db: Db, clear: bool)
    requires Eased(s.db, db)
    ensures Tokens(Sys(db, s.workers), clear) <= Tokens(s, clear) && Queued(db) == Queued(s.db)
  {
    hide Weight, Phase, Tokens, FreeItems;
    TokensShrink(s, Sys(db, s.workers), clear);
  }

  lemma GrantFacts(db: Db, sid: nat, t: nat)
    requires sid < |db.scopes| && t < |db.tasks|
    ensures var (g, tk) := Grant(db, sid, t);
            && tk.task == t && g.members == db.members && |g.tasks| == |db.tasks|
            && g.tasks == db.tasks[t := db.tasks[t].(status := TaskRunning, workerToken := g.tasks[t].workerToken)]
  {
    hide LeaseItem, Update;
  }

  lemma PendingGeneration(db: Db, t: nat)
    requires TasksOk(db) && t < |db.tasks| && db.tasks[t].status == TaskPending
    ensures db.tasks[t].generation <= MAX_GENERATION
  {
    assert TaskOk(db, db.tasks[t]);
  }

  /** Taking up a pending task. */
  lemma TakingPendingDescends(s: Sys, r: Db, sid: nat, t: nat, w: nat)
    requires Good(r) && Eased(s.db, r) && sid < |r.scopes| && t < |r.tasks| && Claims(r.tasks[t], sid, r.scopes[sid].paused)
    requires w !in s.workers
    ensures Below(Sys(Grant(r, sid, t).0, s.workers[w := Holding(Grant(r, sid, t).1)]), s)
  {
    hide RowsOk, TasksOk, ItemsOk, SequencesOk, Grant, Eased, Tokens, FreeItems, Queued, Weight, Clear, Phase, Below;
    var m := Sys(r, s.workers);
    var b := Sys(Grant(r, sid, t).0, s.workers[w := Holding(Grant(r, sid, t).1)]);
    EasedTokens(s, r, false);
    EasedTokens(s, r, true);
    EasedFree(s.db, r);
    GrantFacts(r, sid, t);
    PendingGeneration(r, t);
    GrantSpends(m, b, t, w);
    GrantFreesNothing(r, sid, t);
    QueuedByMembers(r, b.db);
    SmallerSet(Tokens(m, true), Tokens(s, true));
    SmallerSet(Tokens(m, false), Tokens(s, false));
    SmallerSet(FreeItems(b.db), FreeItems(s.db));
    if Clear(r, t) {
      SmallerSet(Tokens(b, false), Tokens(m, false));
      DescendsClear(b, s);
    } else {
      DescendsUnclear(b, s);
    }
  }

  lemma EasedFree(a: Db, b: Db)
    requires Eased(a, b)
    ensures FreeItems(b) <= FreeItems(a) && |b.tasks| == |a.tasks| && b.members == a.members
  {}

  lemma DescendsClear(b: Sys, a: Sys)
    requires Queued(b.db) == Queued(a.db) && |Tokens(b, false)| <= |Tokens(a, false)|
    requires |FreeItems(b.db)| <= |FreeItems(a.db)| && |Tokens(b, true)| < |Tokens(a, true)|
    ensures Below(b, a)
  {}

  lemma DescendsUnclear(b: Sys, a: Sys)
    requires Queued(b.db) == Queued(a.db) && |Tokens(b, false)| < |Tokens(a, false)|
    ensures Below(b, a)
  {}

  lemma DescendsFree(b: Sys, a: Sys)
    requires Queued(b.db) == Queued(a.db) && |Tokens(b, false)| <= |Tokens(a, false)| && |FreeItems(b.db)| < |FreeItems(a.db)|
    ensures Below(b, a)
  {}

  /** Forming a batch uses up free items. */
  lemma TakingBatchDescends(s: Sys, r: Db, wk: Db, sid: nat, ids: seq<nat>, w: nat)
    requires Good(wk) && Eased(s.db, r) && Eased(r, wk) && sid < |wk.scopes| && !wk.scopes[sid].paused && w !in s.workers
    requires NothingClaimable(wk.tasks, sid, false) && NoneRunning(wk, sid) && ids == NextBatch(wk, sid) && ids != []
    requires CreateTask(wk, sid, ids, Execute, None, None).1 == Created(|wk.tasks|)
    requires forall v | v in s.workers :: s.workers[v].ticket.task < |wk.tasks|
    ensures var (g, tk) := Grant(CreateTask(wk, sid, ids, Execute, None, None).0, sid, |wk.tasks|);
            Below(Sys(g, s.workers[w := Holding(tk)]), s)
  {
    hide RowsOk, TasksOk, ItemsOk, SequencesOk, CreateTask, Grant, NextBatch, Eased, Tokens, FreeItems, Queued, Weight, Clear, Phase, Below;
    var c := CreateTask(wk, sid, ids, Execute, None, None).0;
    var (g, tk) := Grant(c, sid, |wk.tasks|);
    var m, b := Sys(wk, s.workers), Sys(g, s.workers[w := Holding(tk)]);
    EasedOn(s.db, r, wk);
    EasedTokens(s, wk, false);
    EasedFree(s.db, wk);
    BatchUsesFreeItems(wk, sid, ids);
    BatchSize(wk, sid, ids);
    GrantFacts(c, sid, |wk.tasks|);
    BatchIsClear(wk, sid, ids, c);
    QueuedByMembers(wk, g);
    QueuedByMembers(c, g);
    ClearSame(c, g, |wk.tasks|);
    assert forall t | 0 <= t < |wk.tasks| :: g.tasks[t] == wk.tasks[t];
    BatchTokens(m, b, w);
    SmallerSet(Tokens(b, false), Tokens(s, false));
    SmallerSet(FreeItems(g), FreeItems(s.db));
    DescendsFree(b, s);
  }

  /** A claim that finds nothing has at least recovered an expired task. */
  lemma EmptyClaimRecovered(s: Sys, sid: nat) returns (t: nat)
    requires Inv(s) && Claimable(s.db, sid) && ClaimEnds(s.db, sid, TakesNothing)
    ensures t < |s.db.tasks| && s.db.tasks[t].scope == sid && s.db.tasks[t].status == TaskRunning
  {
    hide RowsOk, TasksOk, ItemsOk, SequencesOk, WorkerOk, ClaimableItem, Wake, NextBatch, Claim;
    RecoverShape(s.db, sid);
    if !s.db.scopes[sid].paused {
      if i :| 0 <= i < |s.db.items| && ClaimableItem(s.db, sid, i) {
        ClaimYieldsTask(s, sid, i);
      }
    }
    assert HasLiveTask(s.db, sid);
    var u :| 0 <= u < |s.db.tasks| && s.db.tasks[u].scope == sid && Live(s.db.tasks[u])
      && (!s.db.scopes[sid].paused || s.db.tasks[u].mode == Simulate);
    assert !Claims(Recover(s.db, sid).tasks[u], sid, s.db.scopes[sid].paused);
    t := u;
  }

  lemma EmptyClaimDescends(s: Sys, sid: nat, next: Db)
    requires Inv(s) && sid < |s.db.scopes| && Claimable(s.db, sid) && ClaimEnds(s.db, sid, TakesNothing) && next == Claim(s.db, sid).0
    ensures Below(Sys(next, s.workers), s)
  {
    hide RowsOk, TasksOk, ItemsOk, SequencesOk, WorkerOk, Claimable, Recover, Wake, NextBatch, Tokens, FreeItems, Queued, Weight, Clear, Phase, Below;
    hide Evolves, NoneRunning, NothingClaimable, Claim;
    var r := Recover(s.db, sid);
    RecoverKeeps(s.db, sid);
    RecoverShape(s.db, sid);
    RecoverEases(s.db, sid);
    WakeEases(r, sid);
    WakeTasks(r, sid);
    EasedOn(s.db, r, Wake(r, sid));
    var t := EmptyClaimRecovered(s, sid);
    var b := Sys(next, s.workers);
    EasedTokens(s, next, false);
    EasedTokens(s, next, true);
    TaskSpends(s, b, t);
    SmallerSet(Tokens(b, false), Tokens(s, false));
    SmallerSet(Tokens(b, true), Tokens(s, true));
    SmallerSet(FreeItems(next), FreeItems(s.db));
    if Clear(s.db, t) {
      DescendsClear(b, s);
    } else {
      DescendsUnclear(b, s);
    }
  }

  lemma WakeTasks(db: Db, sid: nat)
    requires sid < |db.scopes|
    ensures Wake(db, sid).tasks == db.tasks
  {}

  lemma TakeWorkDescends(s: Sys, w: nat, sid: nat)
    requires Inv(s) && Enabled(s, TakeWork(w, sid))
    ensures Below(Next(s, TakeWork(w, sid)), s)
  {
    hide RowsOk, TasksOk, ItemsOk, SequencesOk, Recover, Wake, NextBatch, CreateTask, Grant, Claim, Below, Evolves, NoneRunning;
    hide LeaseFree, HasLiveTask, ClaimableItem, Eased, TicketOk, RequestOk;
    var db := s.db;
    var r := Recover(db, sid);
    RecoverKeeps(db, sid);
    RecoverShape(db, sid);
    RecoverEases(db, sid);
    EasedFree(db, r);
    var how := ClaimEndsSomehow(db, sid);
    match how
    case TakesPending(t) => TakingPendingDescends(s, r, sid, t, w);
    case TakesBatch(ids) =>
      WakeKeeps(r, sid);
      WakeShape(r, sid);
      WakeTasks(r, sid);
      WakeEases(r, sid);
      EasedFree(r, Wake(r, sid));
      forall v | v in s.workers ensures s.workers[v].ticket.task < |db.tasks| {
        assert WorkerOk(db, s.workers[v]);
        TicketInRange(db, s.workers[v].ticket);
      }
      TakingBatchDescends(s, r, Wake(r, sid), sid, ids, w);
    case TakesNothing => EmptyClaimDescends(s, sid, Claim(db, sid).0);
  }

  lemma TicketInRange(db: Db, tk: Ticket)
    requires TicketOk(db, tk)
    ensures tk.task < |db.tasks| && tk.scope == db.tasks[tk.task].scope
  {}

  // ----- every engine step descends -----

  /** The steps of the engine itself and of the clock; all other steps are outside writers. */
  predicate IsEngine(step: Step) {
    step.TakeWork? || step.Prepare? || step.Answer? || step.Conclude? || step.Interrupt? || step.Abandon? || step.Crash? || step.Tick?
  }

  lemma WorkerDescends(a: Sys, b: Sys, w: nat)
    requires w in a.workers && Calm(a.db, b.db, a.workers[w].ticket.task)
    requires b.workers.Keys <= a.workers.Keys
    requires forall v | v in b.workers && v != w :: b.workers[v] == a.workers[v]
    requires w in b.workers ==> b.workers[w].ticket == a.workers[w].ticket && Phase(b.workers[w]) < Phase(a.workers[w])
    ensures Below(b, a)
  {
    hide Queued, Tokens, FreeItems, Weight, Clear, Below;
    assert Lighter(a, b);
    if Queued(b.db) == Queued(a.db) {
      TokensShrink(a, b, false);
      TokensShrink(a, b, true);
      WorkerSpends(a, b, w);
      SmallerSet(Tokens(b, true), Tokens(a, true));
    }
    BelowBy(a, b);
  }

  lemma EngineDescends(s: Sys, step: Step)
    requires Inv(s) && Enabled(s, step) && IsEngine(step) && !step.Tick?
    ensures Below(Next(s, step), s)
  {
    hide RowsOk, TasksOk, ItemsOk, SequencesOk, Below, Claim, Process, Accepts, Commit, FinishFailure, TicketOk, RequestOk, Plan, Calm, Claimable;
    var db, next := s.db, Next(s, step);
    if step.TakeWork? {
      TakeWorkDescends(s, step.worker, step.scope);
    } else {
      var w := step.worker;
      assert WorkerOk(db, s.workers[w]);
      var x := s.workers[w];
      match step {
      case Prepare(_, pin, authorized) => ProcessCalm(db, x.ticket, pin, authorized);
      case Answer(_, _, _) => PlansCalm(db, next.db, x.ticket.task);
      case Conclude(_, authorized) => CommitCalm(db, x.ticket, x.request, x.decisions, authorized);
      case Interrupt(_, _) => CalmNot(db, x.ticket.task);
      case Abandon(_) => FailureCalm(db, x.ticket, x.failure);
      case Crash(_) => CalmNot(db, x.ticket.task);
      }
      WorkerDescends(s, next, w);
    }
  }

  lemma PlansCalm(a: Db, b: Db, t: nat)
    requires b == a.(plans := b.plans)
    ensures Calm(a, b, t)
  {
    hide LastChange;
    assert forall sid | 0 <= sid < |a.scopes| :: Revision(b, sid) == Revision(a, sid);
    assert Queued(b) == Queued(a) && FreeItems(b) == FreeItems(a);
  }

  lemma ClockKeepsMeasure(s: Sys, now: nat)
    ensures var b := s.(db := s.db.(now := now));
            Queued(b.db) == Queued(s.db) && FreeItems(b.db) == FreeItems(s.db)
            && Tokens(b, false) == Tokens(s, false) && Tokens(b, true) == Tokens(s, true)
  {
    hide LastChange, Weight, Phase, Tokens, FreeItems;
    var b := s.(db := s.db.(now := now));
    PlansOrClock(s.db, b.db);
    forall c ensures Tokens(b, c) == Tokens(s, c) {
      TokensShrink(s, b, c);
      TokensShrink(b, s, c);
    }
  }

  lemma PlansOrClock(a: Db, b: Db)
    requires b == a.(now := b.now)
    ensures Queued(b) == Queued(a) && FreeItems(b) == FreeItems(a)
  {
    hide LastChange;
    assert forall sid | 0 <= sid < |a.scopes| :: Revision(b, sid) == Revision(a, sid);
  }

  // ----- all runs come to rest -----

  ghost predicate EngineRun(states: nat -> Sys, steps: nat -> Step, from: nat) {
    && Inv(states(from))
    && forall k: nat | k >= from ::
         Enabled(states(k), steps(k)) && IsEngine(steps(k)) && states(k + 1) == Next(states(k), steps(k))
  }

  ghost predicate OnlyClockFrom(steps: nat -> Step, n: nat) { forall k: nat | k >= n :: steps(k).Tick? }

  /** In an infinite run without outside writers only the clock moves from some point on. */
  lemma ComesToRest(states: nat -> Sys, steps: nat -> Step, from: nat) returns (n: nat)
    requires EngineRun(states, steps, from)
    ensures n >= from && OnlyClockFrom(steps, n)
    decreases |Queued(states(from).db)|, |Tokens(states(from), false)|, |FreeItems(states(from).db)|, |Tokens(states(from), true)|
  {
    hide Inv, Enabled, Next, Queued, Tokens, FreeItems;
    if OnlyClockFrom(steps, from) {
      n := from;
    } else {
      var k: nat :| k >= from && !steps(k).Tick?;
      n := RestAfter(states, steps, from, k);
    }
  }

  lemma RestAfter(states: nat -> Sys, steps: nat -> Step, from: nat, k: nat) returns (n: nat)
    requires EngineRun(states, steps, from) && k >= from && !steps(k).Tick?
    ensures n >= from && OnlyClockFrom(steps, n)
    decreases |Queued(states(from).db)|, |Tokens(states(from), false)|, |FreeItems(states(from).db)|, |Tokens(states(from), true)|, k - from
  {
    hide Inv, Enabled, Next, Queued, Tokens, FreeItems;
    var s, step := states(from), steps(from);
    StepKeepsInv(s, step);
    if step.Tick? {
      TickNext(s, step);
      ClockKeepsMeasure(s, step.now);
      n := RestAfter(states, steps, from + 1, k);
    } else {
      EngineDescends(s, step);
      n := ComesToRest(states, steps, from + 1);
    }
  }

  lemma TickNext(s: Sys, step: Step)
    requires Enabled(s, step) && step.Tick?
    ensures Next(s, step) == s.(db := s.db.(now := step.now))
  {
    hide Claim, Process, Accepts, Commit, FinishFailure, CreateTask, CancelTask, SetPaused, SaveQualification;
  }

  /** Nothing in progress, and nothing claimable now or at any later time. */
  ghost predicate Quiet(s: Sys) {
    s.workers == map[] && forall later: nat, sid: nat | later >= s.db.now :: !Claimable(s.db.(now := later), sid)
  }

  /** A step a healthy worker takes next. */
  ghost function WorkerStep(w: nat, x: Worker): Step {
    match x
    case Holding(_) => Prepare(w, 0, true)
    case Waiting4Kernel(_, q) => Answer(w, Some(Response(q.task, q.generation, q.pin, q.hash, true, Plan(q.snapshot))), OtherFailure)
    case Accepted(_, _, _) => Conclude(w, true)
    case Aborting(_, _) => Abandon(w)
  }

  lemma WorkerStepEnabled(s: Sys, w: nat)
    requires Inv(s) && w in s.workers
    ensures var step := WorkerStep(w, s.workers[w]);
            Enabled(s, step) && IsEngine(step) && !step.Tick?
  {
    hide RowsOk, TasksOk, ItemsOk, SequencesOk, Plan, Canonical, TicketOk, LeasedCovered;
    assert WorkerOk(s.db, s.workers[w]);
  }

  /** From every reachable state the engine alone can drain the queue. */
  lemma CanDrain(s: Sys) returns (steps: seq<Step>)
    requires Inv(s)
    ensures Runs(s, steps) && (forall k | k in steps :: IsEngine(k)) && Quiet(After(s, steps))
    decreases |Queued(s.db)|, |Tokens(s, false)|, |FreeItems(s.db)|, |Tokens(s, true)|, 1
  {
    hide Inv, Enabled, Next, Queued, Tokens, FreeItems, Claimable, WorkerStep;
    if w :| w in s.workers {
      var step := WorkerStep(w, s.workers[w]);
      WorkerStepEnabled(s, w);
      StepKeepsInv(s, step);
      EngineDescends(s, step);
      var rest := CanDrain(Next(s, step));
      steps := Prepend(s, step, rest);
    } else if later: nat, sid: nat :| later >= s.db.now && Claimable(s.db.(now := later), sid) {
      steps := DrainLater(s, later, sid);
    } else {
      steps := [];
      assert s.workers == map[];
    }
  }

  lemma DrainLater(s: Sys, later: nat, sid: nat) returns (steps: seq<Step>)
    requires Inv(s) && s.workers.Keys == {} && later >= s.db.now && Claimable(s.db.(now := later), sid)
    ensures Runs(s, steps) && (forall k | k in steps :: IsEngine(k)) && Quiet(After(s, steps))
    decreases |Queued(s.db)|, |Tokens(s, false)|, |FreeItems(s.db)|, |Tokens(s, true)|, 0
  {
    hide Inv, Next, Queued, Tokens, FreeItems, Claimable;
    var tick, take := Tick(later), TakeWork(0, sid);
    TickNext(s, tick);
    StepKeepsInv(s, tick);
    ClockKeepsMeasure(s, later);
    var t := Next(s, tick);
    assert Enabled(t, take);
    StepKeepsInv(t, take);
    EngineDescends(t, take);
    var rest := CanDrain(Next(t, take));
    var tail := Prepend(t, take, rest);
    steps := Prepend(s, tick, tail);
  }

  lemma Prepend(s: Sys, step: Step, rest: seq<Step>) returns (steps: seq<Step>)
    requires Enabled(s, step) && IsEngine(step) && Runs(Next(s, step), rest) && forall k | k in rest :: IsEngine(k)
    ensures Runs(s, steps) && After(s, steps) == After(Next(s, step), rest) && forall k | k in steps :: IsEngine(k)
  {
    hide Enabled, Next;
    steps := [step] + rest;
    assert steps[1..] == rest;
  }
}
