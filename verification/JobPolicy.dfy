/** Deriving pools, demand rules and assessment standards from the job records. Derivation settles
    after two passes, and after one exactly when no mapping of a missing posting is rewritten away. */
module JobPolicy {
  import opened AllocationStore
  import opened AllocationCanonical

  // ----- names and codes -----

  predicate IsSpace(c: char) { c == ' ' || c == '\t' || c == '\n' || c == '\r' }

  function Lower(c: char): char { if 'A' <= c <= 'Z' then ((c as int) + 32) as char else c }

  /** Names compare without white space and letter case. */
  function Normal(name: string): string {
    if name == "" then ""
    else (if IsSpace(name[0]) then "" else [Lower(name[0])]) + Normal(name[1..])
  }

  /** A code derived from normalised names, or one chosen by hand. */
  datatype Code = PoolCode(entity: string, name: string) | StandardCode(entity: string, name: string) | CustomCode(text: string)

  // ----- records -----

  /** responsibilities is trimmed. */
  datatype Requirement = Requirement(responsibilities: string, education: string, majors: seq<string>)

  datatype Job = Job(
    jobId: nat, active: bool, entity: string, position: string, posting: string, requirement: Requirement)

  datatype Pool = Pool(code: Code, entity: string, name: string, active: bool, generated: bool)

  datatype Rule = Rule(
    jobId: nat, poolCode: Code, active: bool, required: seq<string>, preferred: seq<string>, priority: int)

  datatype Issue = NoIssue | SourceJobMissing | SourceJobConflict | ResponsibilityMissing

  /** sourceJob 0 means that no source job has been chosen. */
  datatype Standard = Standard(
    code: Code, name: string, entity: string, applications: seq<string>, active: bool, generated: bool,
    tags: seq<string>, sourceJob: nat, sourceJobs: seq<nat>, pool: Option<Code>, requirement: Requirement, issue: Issue)

  datatype Policy = Policy(pools: seq<Pool>, rules: seq<Rule>, standards: seq<Standard>)

  // ----- pools and rules -----

  predicate Usable(j: Job) { j.active && Normal(j.entity) != "" && Normal(j.position) != "" }

  function PoolOf(j: Job): Code { PoolCode(Normal(j.entity), Normal(j.position)) }

  /** The first pool of the code. */
  function FindPool(pools: seq<Pool>, code: Code): Option<Pool> {
    if pools == [] then None
    else if pools[0].code == code then Some(pools[0])
    else FindPool(pools[1..], code)
  }

  function EntityOf(pools: seq<Pool>, code: Code): string {
    var p := FindPool(pools, code);
    if p.Some? then Normal(p.value.entity) else ""
  }

  /** Index of the first rule of the job. */
  function FindRule(rules: seq<Rule>, jobId: nat): (r: Option<nat>)
    ensures r.Some? ==> r.value < |rules| && rules[r.value].jobId == jobId
  {
    if rules == [] then None
    else if rules[0].jobId == jobId then Some(0)
    else
      match FindRule(rules[1..], jobId)
      case None => None
      case Some(k) => Some(k + 1)
  }

  function WithPool(pools: seq<Pool>, j: Job): seq<Pool> {
    if FindPool(pools, PoolOf(j)).Some? then pools else pools + [Pool(PoolOf(j), j.entity, j.position, true, true)]
  }

  function WithRule(rules: seq<Rule>, pools: seq<Pool>, j: Job): seq<Rule> {
    match FindRule(rules, j.jobId)
    case None => rules + [Rule(j.jobId, PoolOf(j), false, [], [], 0)]
    case Some(k) =>
      if EntityOf(pools, rules[k].poolCode) != Normal(j.entity)
      then rules[k := rules[k].(poolCode := PoolOf(j), active := false)] else rules
  }

  /** The loop over the jobs, as far as pools and rules go. */
  function Route(pools: seq<Pool>, rules: seq<Rule>, jobs: seq<Job>): (seq<Pool>, seq<Rule>)
    decreases |jobs|
  {
    if jobs == [] then (pools, rules)
    else
      var j := jobs[0];
      if !Usable(j) then Route(pools, rules, jobs[1..])
      else
        var wide := WithPool(pools, j);
        Route(wide, WithRule(rules, wide, j), jobs[1..])
  }

  predicate KnownJob(jobs: seq<Job>, jobId: nat) { exists i :: 0 <= i < |jobs| && jobs[i].jobId == jobId }

  function Kept(rules: seq<Rule>, jobs: seq<Job>): seq<Rule> {
    if rules == [] then []
    else (if KnownJob(jobs, rules[0].jobId) then [rules[0]] else []) + Kept(rules[1..], jobs)
  }

  // ----- standards -----

  predicate Posted(j: Job) { Usable(j) && Normal(j.posting) != "" }

  function CodeOf(j: Job): Code { StandardCode(Normal(j.entity), Normal(j.posting)) }

  function InGroup(j: Job, code: Code): seq<Job> { if Posted(j) && CodeOf(j) == code then [j] else [] }

  /** The jobs behind one posting, in order. */
  function Group(jobs: seq<Job>, code: Code): seq<Job> {
    if jobs == [] then [] else InGroup(jobs[0], code) + Group(jobs[1..], code)
  }

  /** The group codes, each once, in the order in which they are visited. */
  ghost predicate Visits(order: seq<Code>, jobs: seq<Job>) {
    && (forall i, j | 0 <= i < j < |order| :: order[i] != order[j])
    && (forall c :: c in order <==> Group(jobs, c) != [])
  }

  predicate HasStandard(standards: seq<Standard>, code: Code) { exists i :: 0 <= i < |standards| && standards[i].code == code }

  /** The standard takes applications for the group's posting. */
  predicate MapsTo(s: Standard, code: Code) {
    code.StandardCode? && Normal(s.entity) == code.entity
    && exists k :: 0 <= k < |s.applications| && Normal(s.applications[k]) == code.name
  }

  predicate Mapped(standards: seq<Standard>, code: Code) { exists i :: 0 <= i < |standards| && MapsTo(standards[i], code) }

  function NewStandard(jobs: seq<Job>, code: Code): Standard
    requires Group(jobs, code) != []
  {
    var j := Group(jobs, code)[0];
    Standard(code, j.posting, j.entity, [j.posting], true, true, [], 0, [], None, Requirement("", "", []), NoIssue)
  }

  /** Adding the standards of postings that have none and that nobody maps. */
  function AddMissing(standards: seq<Standard>, jobs: seq<Job>, order: seq<Code>): (r: seq<Standard>)
    requires forall c | c in order :: Group(jobs, c) != []
    decreases |order|
  {
    if order == [] then standards
    else
      var c := order[0];
      AddMissing(if HasStandard(standards, c) || Mapped(standards, c) then standards else standards + [NewStandard(jobs, c)],
                 jobs, order[1..])
  }

  function JobIds(jobs: seq<Job>): (r: seq<nat>)
    ensures |r| == |jobs| && forall i | 0 <= i < |jobs| :: r[i] == jobs[i].jobId
  {
    seq(|jobs|, i requires 0 <= i < |jobs| => jobs[i].jobId)
  }

  /** The last job of the group with the id; ids are unique. */
  function SourceIn(group: seq<Job>, jobId: nat): Option<Job> {
    if group == [] then None
    else if group[|group| - 1].jobId == jobId then Some(group[|group| - 1])
    else SourceIn(group[..|group| - 1], jobId)
  }

  predicate Agree(a: Job, b: Job) { Normal(a.position) == Normal(b.position) && a.requirement == b.requirement }

  predicate Conflicting(group: seq<Job>) { exists i :: 0 <= i < |group| && !Agree(group[0], group[i]) }

  function FromSource(s: Standard, source: Job): Standard {
    s.(pool := Some(PoolOf(source)), requirement := source.requirement,
       issue := if source.requirement.responsibilities == "" then ResponsibilityMissing else NoIssue)
  }

  /** Bringing a generated standard up to date with its group. */
  function Refresh(s: Standard, group: seq<Job>): Standard {
    if !s.generated then s
    else
      var s := s.(issue := NoIssue, sourceJobs := JobIds(group));
      var source := SourceIn(group, s.sourceJob);
      if group == [] || (s.sourceJob > 0 && source.None?) then s.(issue := SourceJobMissing)
      else
        var j := group[0];
        var s := s.(pool := Some(PoolOf(j)), entity := j.entity, name := j.posting, applications := [j.posting]);
        if source.Some? then FromSource(s, source.value)
        else if Conflicting(group) then s.(issue := SourceJobConflict)
        else FromSource(s, j)
  }

  function RefreshAll(standards: seq<Standard>, jobs: seq<Job>): seq<Standard> {
    Each((s: Standard) => Refresh(s, Group(jobs, s.code)), standards)
  }

  /** The whole derivation. */
  function Derive(p: Policy, jobs: seq<Job>, order: seq<Code>): Policy
    requires forall c | c in order :: Group(jobs, c) != []
  {
    var (pools, rules) := Route(p.pools, Kept(p.rules, jobs), jobs);
    Policy(pools, rules, RefreshAll(AddMissing(p.standards, jobs, order), jobs))
  }

  // ----- pools and rules settle in one pass -----

  lemma {:induction false} FindPoolAppend(pools: seq<Pool>, more: seq<Pool>, code: Code)
    ensures FindPool(pools, code).Some? ==> FindPool(pools + more, code) == FindPool(pools, code)
    ensures FindPool(pools, code).None? ==> FindPool(pools + more, code) == FindPool(more, code)
  {
    if pools == [] {
      assert pools + more == more;
    } else {
      assert (pools + more)[1..] == pools[1..] + more;
      FindPoolAppend(pools[1..], more, code);
    }
  }

  /** Pools are only ever added, at the end. */
  ghost predicate Grows(a: seq<Pool>, b: seq<Pool>) { |a| <= |b| && b[..|a|] == a }

  lemma GrowsFinds(a: seq<Pool>, b: seq<Pool>, code: Code)
    requires Grows(a, b) && FindPool(a, code).Some?
    ensures FindPool(b, code) == FindPool(a, code)
  {
    assert b == a + b[|a|..];
    FindPoolAppend(a, b[|a|..], code);
  }

  lemma WithPoolFinds(pools: seq<Pool>, j: Job)
    ensures Grows(pools, WithPool(pools, j)) && FindPool(WithPool(pools, j), PoolOf(j)).Some?
  {
    FindPoolAppend(pools, [Pool(PoolOf(j), j.entity, j.position, true, true)], PoolOf(j));
  }

  /** A rule the jobs loop has nothing more to do for. */
  predicate RuleSettled(rules: seq<Rule>, pools: seq<Pool>, j: Job) {
    var k := FindRule(rules, j.jobId);
    && k.Some?
    && (EntityOf(pools, rules[k.value].poolCode) != Normal(j.entity) ==>
          rules[k.value].poolCode == PoolOf(j) && !rules[k.value].active)
  }

  ghost predicate AllSettled(pools: seq<Pool>, rules: seq<Rule>, jobs: seq<Job>) {
    forall i | 0 <= i < |jobs| && Usable(jobs[i]) :: FindPool(pools, PoolOf(jobs[i])).Some? && RuleSettled(rules, pools, jobs[i])
  }

  lemma {:induction false} SettledIsFixed(pools: seq<Pool>, rules: seq<Rule>, jobs: seq<Job>)
    requires AllSettled(pools, rules, jobs)
    ensures Route(pools, rules, jobs) == (pools, rules)
  {
    if jobs != [] {
      var j := jobs[0];
      assert AllSettled(pools, rules, jobs[1..]) by {
        assert forall i | 0 <= i < |jobs[1..]| :: jobs[1..][i] == jobs[i + 1];
      }
      SettledIsFixed(pools, rules, jobs[1..]);
      if Usable(j) {
        assert RuleSettled(rules, pools, j);
        var k := FindRule(rules, j.jobId).value;
        assert EntityOf(pools, rules[k].poolCode) != Normal(j.entity) ==> rules[k := rules[k].(poolCode := PoolOf(j), active := false)] == rules;
      }
    }
  }

  lemma {:induction false} FindRuleAppend(rules: seq<Rule>, r: Rule, jobId: nat)
    ensures FindRule(rules, jobId).Some? ==> FindRule(rules + [r], jobId) == FindRule(rules, jobId)
    ensures FindRule(rules, jobId).None? ==> FindRule(rules + [r], jobId) == if r.jobId == jobId then Some(|rules|) else None
  {
    if rules == [] {
      assert rules + [r] == [r];
    } else {
      assert (rules + [r])[1..] == rules[1..] + [r];
      FindRuleAppend(rules[1..], r, jobId);
    }
  }

  lemma {:induction false} FindRuleUpdate(rules: seq<Rule>, k: nat, r: Rule, jobId: nat)
    requires k < |rules| && r.jobId == rules[k].jobId
    ensures FindRule(rules[k := r], jobId) == FindRule(rules, jobId)
  {
    if k > 0 {
      assert rules[k := r][1..] == rules[1..][k - 1 := r];
      FindRuleUpdate(rules[1..], k - 1, r, jobId);
    } else {
      assert rules[k := r][1..] == rules[1..];
    }
  }

  /** The rule of the job is the same in both lists. */
  ghost predicate SameRule(a: seq<Rule>, b: seq<Rule>, jobId: nat) {
    && FindRule(b, jobId) == FindRule(a, jobId)
    && (FindRule(a, jobId).Some? ==> b[FindRule(b, jobId).value] == a[FindRule(a, jobId).value])
  }

  /** Routing one job settles its rule and leaves the other jobs' rules as they are. */
  lemma WithRuleSettles(rules: seq<Rule>, pools: seq<Pool>, j: Job, other: nat)
    ensures RuleSettled(WithRule(rules, pools, j), pools, j)
    ensures other != j.jobId ==> SameRule(rules, WithRule(rules, pools, j), other)
  {
    match FindRule(rules, j.jobId)
    case None =>
      FindRuleAppend(rules, Rule(j.jobId, PoolOf(j), false, [], [], 0), j.jobId);
      FindRuleAppend(rules, Rule(j.jobId, PoolOf(j), false, [], [], 0), other);
    case Some(k) =>
      FindRuleUpdate(rules, k, rules[k].(poolCode := PoolOf(j), active := false), j.jobId);
      FindRuleUpdate(rules, k, rules[k].(poolCode := PoolOf(j), active := false), other);
  }

  lemma GrowsOn(a: seq<Pool>, b: seq<Pool>, c: seq<Pool>)
    requires Grows(a, b) && Grows(b, c)
    ensures Grows(a, c)
  {}

  /** What routing leaves alone: earlier pools and the rules of jobs it does not visit. */
  lemma {:induction false} RouteElsewhere(pools: seq<Pool>, rules: seq<Rule>, jobs: seq<Job>, other: nat)
    ensures var (p, r) := Route(pools, rules, jobs);
            Grows(pools, p) && ((forall i | 0 <= i < |jobs| :: jobs[i].jobId != other) ==> SameRule(rules, r, other))
    decreases |jobs|
  {
    hide FindPool, FindRule, WithPool, WithRule, Normal;
    if jobs == [] {
      assert Grows(pools, pools);
    } else if !Usable(jobs[0]) {
      RouteElsewhere(pools, rules, jobs[1..], other);
    } else {
      var wide := WithPool(pools, jobs[0]);
      WithPoolFinds(pools, jobs[0]);
      WithRuleSettles(rules, wide, jobs[0], other);
      RouteElsewhere(wide, WithRule(rules, wide, jobs[0]), jobs[1..], other);
      GrowsOn(pools, wide, Route(pools, rules, jobs).0);
    }
  }

  lemma StaysSettled(a: seq<Rule>, b: seq<Rule>, p: seq<Pool>, q: seq<Pool>, j: Job)
    requires Usable(j) && RuleSettled(a, p, j) && Grows(p, q) && SameRule(a, b, j.jobId)
    ensures RuleSettled(b, q, j)
  {
    var k := FindRule(a, j.jobId).value;
    if FindPool(p, a[k].poolCode).Some? {
      GrowsFinds(p, q, a[k].poolCode);
    }
  }

  ghost predicate DistinctJobs(jobs: seq<Job>) { forall i, j | 0 <= i < j < |jobs| :: jobs[i].jobId != jobs[j].jobId }

  lemma {:induction false} RouteSettles(pools: seq<Pool>, rules: seq<Rule>, jobs: seq<Job>)
    requires DistinctJobs(jobs)
    ensures AllSettled(Route(pools, rules, jobs).0, Route(pools, rules, jobs).1, jobs)
    decreases |jobs|
  {
    hide FindPool, FindRule, WithPool, WithRule, Normal;
    if jobs != [] {
      var j, rest := jobs[0], jobs[1..];
      assert DistinctJobs(rest) && forall i | 0 <= i < |rest| :: rest[i] == jobs[i + 1];
      var (p, r) := Route(pools, rules, jobs);
      if !Usable(j) {
        RouteSettles(pools, rules, rest);
      } else {
        var wide := WithPool(pools, j);
        var next := WithRule(rules, wide, j);
        RouteSettles(wide, next, rest);
        WithPoolFinds(pools, j);
        WithRuleSettles(rules, wide, j, 0);
        RouteElsewhere(wide, next, rest, j.jobId);
        GrowsFinds(wide, p, PoolOf(j));
        StaysSettled(next, r, wide, p, j);
      }
      SettledCons(p, r, jobs);
    }
  }

  lemma SettledCons(p: seq<Pool>, r: seq<Rule>, jobs: seq<Job>)
    requires jobs != [] && AllSettled(p, r, jobs[1..])
    requires Usable(jobs[0]) ==> FindPool(p, PoolOf(jobs[0])).Some? && RuleSettled(r, p, jobs[0])
    ensures AllSettled(p, r, jobs)
  {
    forall i | 0 <= i < |jobs| && Usable(jobs[i]) ensures FindPool(p, PoolOf(jobs[i])).Some? && RuleSettled(r, p, jobs[i]) {
      if i > 0 {
        assert jobs[1..][i - 1] == jobs[i];
      }
    }
  }

  // ----- rules of known jobs -----

  ghost predicate AllKnown(rules: seq<Rule>, jobs: seq<Job>) { forall r | r in rules :: KnownJob(jobs, r.jobId) }

  lemma {:induction false} KeptKnown(rules: seq<Rule>, jobs: seq<Job>)
    ensures AllKnown(Kept(rules, jobs), jobs) && (AllKnown(rules, jobs) ==> Kept(rules, jobs) == rules)
  {
    if rules != [] {
      KeptKnown(rules[1..], jobs);
      assert rules == [rules[0]] + rules[1..];
    }
  }

  lemma {:induction false} RouteKnown(pools: seq<Pool>, rules: seq<Rule>, jobs: seq<Job>, all: seq<Job>)
    requires AllKnown(rules, all) && forall j | j in jobs :: KnownJob(all, j.jobId)
    ensures AllKnown(Route(pools, rules, jobs).1, all)
    decreases |jobs|
  {
    hide FindPool, FindRule, KnownJob, Normal;
    if jobs != [] {
      var wide := WithPool(pools, jobs[0]);
      assert jobs == [jobs[0]] + jobs[1..];
      if Usable(jobs[0]) {
        RouteKnown(wide, WithRule(rules, wide, jobs[0]), jobs[1..], all);
      } else {
        RouteKnown(pools, rules, jobs[1..], all);
      }
    }
  }

  /** Pools and rules are the same after every further pass. */
  lemma RoutingSettles(p: Policy, jobs: seq<Job>, order: seq<Code>)
    requires DistinctJobs(jobs) && forall c | c in order :: Group(jobs, c) != []
    ensures var once := Derive(p, jobs, order);
            Derive(once, jobs, order).pools == once.pools && Derive(once, jobs, order).rules == once.rules
  {
    hide Route, AddMissing, RefreshAll, Group, AllSettled;
    var once := Derive(p, jobs, order);
    KeptKnown(p.rules, jobs);
    forall j | j in jobs ensures KnownJob(jobs, j.jobId) {}
    RouteKnown(p.pools, Kept(p.rules, jobs), jobs, jobs);
    KeptKnown(once.rules, jobs);
    RouteSettles(p.pools, Kept(p.rules, jobs), jobs);
    SettledIsFixed(once.pools, once.rules, jobs);
  }

  // ----- nothing is removed, nothing is activated -----

  lemma {:induction false} RouteNeverActivates(pools: seq<Pool>, rules: seq<Rule>, jobs: seq<Job>)
    ensures var r := Route(pools, rules, jobs).1;
            && |rules| <= |r|
            && (forall k | 0 <= k < |rules| ::
                  r[k] == rules[k].(poolCode := r[k].poolCode, active := r[k].active) && (r[k].active ==> r[k] == rules[k]))
            && (forall k | |rules| <= k < |r| :: !r[k].active)
    decreases |jobs|
  {
    hide FindPool, FindRule, Normal;
    if jobs != [] {
      if Usable(jobs[0]) {
        var wide := WithPool(pools, jobs[0]);
        RouteNeverActivates(wide, WithRule(rules, wide, jobs[0]), jobs[1..]);
      } else {
        RouteNeverActivates(pools, rules, jobs[1..]);
      }
    }
  }

  lemma {:induction false} KeptAre(rules: seq<Rule>, jobs: seq<Job>)
    ensures forall r :: r in Kept(rules, jobs) <==> r in rules && KnownJob(jobs, r.jobId)
  {
    if rules != [] {
      KeptAre(rules[1..], jobs);
      assert rules == [rules[0]] + rules[1..];
    }
  }

  /** A rule is active after derivation only if exactly this rule was there and active before. */
  lemma NeverActivates(p: Policy, jobs: seq<Job>, order: seq<Code>, r: Rule)
    requires (forall c | c in order :: Group(jobs, c) != []) && r in Derive(p, jobs, order).rules && r.active
    ensures r in p.rules
  {
    hide Route, AddMissing, RefreshAll, Group;
    var kept := Kept(p.rules, jobs);
    RouteNeverActivates(p.pools, kept, jobs);
    KeptAre(p.rules, jobs);
    var k :| 0 <= k < |Derive(p, jobs, order).rules| && Derive(p, jobs, order).rules[k] == r;
    assert k < |kept| && kept[k] in kept;
  }

  /** Existing pools stay, in place and unchanged. */
  lemma PoolsKept(p: Policy, jobs: seq<Job>, order: seq<Code>)
    requires forall c | c in order :: Group(jobs, c) != []
    ensures Grows(p.pools, Derive(p, jobs, order).pools)
  {
    hide Route, AddMissing, RefreshAll, Group;
    RouteElsewhere(p.pools, Kept(p.rules, jobs), jobs, 0);
  }

  // ----- standards -----

  lemma {:induction false} GroupCodes(jobs: seq<Job>, code: Code)
    ensures forall j | j in Group(jobs, code) :: Posted(j) && CodeOf(j) == code
  {
    hide Normal;
    if jobs != [] {
      GroupCodes(jobs[1..], code);
    }
  }

  /** The new standards of a pass. */
  function News(standards: seq<Standard>, jobs: seq<Job>, order: seq<Code>): seq<Standard>
    requires forall c | c in order :: Group(jobs, c) != []
    decreases |order|
  {
    if order == [] then []
    else
      (if HasStandard(standards, order[0]) || Mapped(standards, order[0]) then [] else [NewStandard(jobs, order[0])])
      + News(standards, jobs, order[1..])
  }

  lemma NewStandardMapsOwn(jobs: seq<Job>, code: Code, other: Code)
    requires Group(jobs, code) != []
    ensures NewStandard(jobs, code).code == code && (MapsTo(NewStandard(jobs, code), other) ==> other == code)
  {
    hide Normal;
    GroupCodes(jobs, code);
    assert Group(jobs, code)[0] in Group(jobs, code);
  }

  lemma AppendStandard(standards: seq<Standard>, s: Standard, code: Code)
    ensures HasStandard(standards + [s], code) <==> HasStandard(standards, code) || s.code == code
    ensures Mapped(standards + [s], code) <==> Mapped(standards, code) || MapsTo(s, code)
  {
    hide MapsTo;
    var all := standards + [s];
    assert all[|standards|] == s && forall i | 0 <= i < |standards| :: all[i] == standards[i];
  }

  /** A new standard does not decide about other postings. */
  lemma {:induction false} NewsElsewhere(standards: seq<Standard>, jobs: seq<Job>, order: seq<Code>, code: Code)
    requires Group(jobs, code) != [] && code !in order && forall c | c in order :: Group(jobs, c) != []
    ensures News(standards + [NewStandard(jobs, code)], jobs, order) == News(standards, jobs, order)
    decreases |order|
  {
    hide MapsTo, Group, NewStandard, HasStandard, Mapped;
    if order != [] {
      AppendStandard(standards, NewStandard(jobs, code), order[0]);
      NewStandardMapsOwn(jobs, code, order[0]);
      NewsElsewhere(standards, jobs, order[1..], code);
    }
  }

  /** The loop over the codes in closed form: every missing and unmapped posting gets its standard. */
  lemma {:induction false} AddMissingIsNews(standards: seq<Standard>, jobs: seq<Job>, order: seq<Code>)
    requires (forall i, j | 0 <= i < j < |order| :: order[i] != order[j]) && forall c | c in order :: Group(jobs, c) != []
    ensures AddMissing(standards, jobs, order) == standards + News(standards, jobs, order)
    decreases |order|
  {
    hide MapsTo, Group, NewStandard, HasStandard, Mapped;
    if order == [] {
      assert standards + [] == standards;
    } else {
      var c, rest := order[0], order[1..];
      assert forall i | 0 <= i < |rest| :: rest[i] == order[i + 1];
      if HasStandard(standards, c) || Mapped(standards, c) {
        AddMissingIsNews(standards, jobs, rest);
        assert [] + News(standards, jobs, rest) == News(standards, jobs, rest);
      } else {
        AddMissingIsNews(standards + [NewStandard(jobs, c)], jobs, rest);
        NewsElsewhere(standards, jobs, rest, c);
        assert standards + ([NewStandard(jobs, c)] + News(standards, jobs, rest))
            == (standards + [NewStandard(jobs, c)]) + News(standards, jobs, rest);
      }
    }
  }

  /** The codes of the new standards. */
  lemma {:induction false} NewsAre(standards: seq<Standard>, jobs: seq<Job>, order: seq<Code>)
    requires forall c | c in order :: Group(jobs, c) != []
    ensures forall s | s in News(standards, jobs, order) :: s.code in order && s == NewStandard(jobs, s.code)
    ensures forall c | c in order && !HasStandard(standards, c) && !Mapped(standards, c) :: NewStandard(jobs, c) in News(standards, jobs, order)
    ensures forall s | s in News(standards, jobs, order) :: !HasStandard(standards, s.code) && !Mapped(standards, s.code)
    decreases |order|
  {
    hide MapsTo, Group, HasStandard, Mapped;
    if order != [] {
      NewsAre(standards, jobs, order[1..]);
      assert order == [order[0]] + order[1..];
    }
  }

  // ----- refreshing -----

  /** Refreshing replaces the standard's postings by its own. */
  predicate Rewritten(s: Standard, group: seq<Job>) {
    s.generated && group != [] && !(s.sourceJob > 0 && SourceIn(group, s.sourceJob).None?)
  }

  lemma RefreshKeeps(s: Standard, group: seq<Job>)
    ensures var r := Refresh(s, group);
            && r.code == s.code && r.generated == s.generated && r.sourceJob == s.sourceJob
            && Refresh(r, group) == r && Rewritten(r, group) == Rewritten(s, group)
            && (!Rewritten(s, group) ==> r.entity == s.entity && r.applications == s.applications)
            && (Rewritten(s, group) ==> r.entity == group[0].entity && r.applications == [group[0].posting])
  {
    hide SourceIn, Conflicting, Normal;
  }

  /** After a refresh a rewritten standard maps its own posting only, any other what it mapped before. */
  lemma RefreshMaps(s: Standard, jobs: seq<Job>, code: Code)
    ensures var g := Group(jobs, s.code);
            && (Rewritten(s, g) && MapsTo(Refresh(s, g), code) ==> code == s.code)
            && (!Rewritten(s, g) ==> MapsTo(Refresh(s, g), code) == MapsTo(s, code))
  {
    hide Normal, Refresh;
    var g := Group(jobs, s.code);
    RefreshKeeps(s, g);
    GroupCodes(jobs, s.code);
    if Rewritten(s, g) {
      assert g[0] in g;
    }
  }

  predicate Survives(standards: seq<Standard>, jobs: seq<Job>, code: Code) {
    exists i :: 0 <= i < |standards| && MapsTo(standards[i], code) && !Rewritten(standards[i], Group(jobs, standards[i].code))
  }

  /** The condition for one pass to be enough: whenever a posting without a standard is mapped by
      another standard, some such mapping is not rewritten. */
  ghost predicate MappingsSurvive(standards: seq<Standard>, jobs: seq<Job>, order: seq<Code>) {
    forall c | c in order && !HasStandard(standards, c) && Mapped(standards, c) :: Survives(standards, jobs, c)
  }

  function DeriveStandards(standards: seq<Standard>, jobs: seq<Job>, order: seq<Code>): seq<Standard>
    requires forall c | c in order :: Group(jobs, c) != []
  {
    RefreshAll(AddMissing(standards, jobs, order), jobs)
  }

  lemma RefreshedTwice(standards: seq<Standard>, jobs: seq<Job>)
    ensures RefreshAll(RefreshAll(standards, jobs), jobs) == RefreshAll(standards, jobs)
  {
    hide Refresh, Group;
    forall i | 0 <= i < |standards|
      ensures RefreshAll(RefreshAll(standards, jobs), jobs)[i] == RefreshAll(standards, jobs)[i]
    {
      RefreshKeeps(standards[i], Group(jobs, standards[i].code));
    }
  }

  /** Codes and mappings after a pass, for a posting that still has no standard. */
  lemma AfterPass(standards: seq<Standard>, jobs: seq<Job>, order: seq<Code>, c: Code)
    requires Visits(order, jobs) && c in order
    ensures var next := DeriveStandards(standards, jobs, order);
            && (HasStandard(next, c) <==> HasStandard(standards, c) || !Mapped(standards, c))
            && (!HasStandard(next, c) ==> (Mapped(next, c) <==> Survives(standards, jobs, c)))
            && (Survives(standards, jobs, c) ==> Survives(next, jobs, c))
  {
    hide MapsTo, Group, Refresh, Rewritten, NewStandard, News;
    var news, next := News(standards, jobs, order), DeriveStandards(standards, jobs, order);
    var all := standards + news;
    AddMissingIsNews(standards, jobs, order);
    NewsAre(standards, jobs, order);
    assert |next| == |all| && forall i | 0 <= i < |all| :: next[i] == Refresh(all[i], Group(jobs, all[i].code));
    forall i | 0 <= i < |all|
      ensures next[i].code == all[i].code && (i >= |standards| ==> all[i] in news)
      ensures Rewritten(all[i], Group(jobs, all[i].code)) && MapsTo(next[i], c) ==> c == all[i].code
      ensures !Rewritten(all[i], Group(jobs, all[i].code)) ==> MapsTo(next[i], c) == MapsTo(all[i], c)
      ensures Rewritten(next[i], Group(jobs, next[i].code)) == Rewritten(all[i], Group(jobs, all[i].code))
    {
      RefreshKeeps(all[i], Group(jobs, all[i].code));
      RefreshMaps(all[i], jobs, c);
    }
    CodesAfter(standards, news, next, jobs, order, c);
    forall s | s in news ensures Rewritten(s, Group(jobs, s.code)) {
      NewIsRewritten(jobs, s.code);
    }
    MappedAfter(standards, news, next, jobs, c);
  }

  lemma NewIsRewritten(jobs: seq<Job>, code: Code)
    requires Group(jobs, code) != []
    ensures Rewritten(NewStandard(jobs, code), Group(jobs, code))
  {}

  lemma CodesAfter(standards: seq<Standard>, news: seq<Standard>, next: seq<Standard>, jobs: seq<Job>, order: seq<Code>, c: Code)
    requires |next| == |standards + news| && forall i | 0 <= i < |next| :: next[i].code == (standards + news)[i].code
    requires (forall c | c in order :: Group(jobs, c) != []) && news == News(standards, jobs, order) && c in order
    ensures HasStandard(next, c) <==> HasStandard(standards, c) || !Mapped(standards, c)
  {
    hide MapsTo, Group, News;
    NewsAre(standards, jobs, order);
    var all := standards + news;
    if i :| 0 <= i < |standards| && standards[i].code == c {
      assert all[i] == standards[i] && next[i].code == c;
    } else if !Mapped(standards, c) {
      assert !HasStandard(standards, c);
      var k :| 0 <= k < |news| && news[k] == NewStandard(jobs, c);
      assert all[|standards| + k] == news[k] && next[|standards| + k].code == c;
    }
    if HasStandard(next, c) {
      var i :| 0 <= i < |next| && next[i].code == c;
      assert i < |standards| ==> standards[i] == all[i] && HasStandard(standards, c);
      assert i >= |standards| ==> all[i] in news && !Mapped(standards, c);
    }
  }

  lemma MappedAfter(standards: seq<Standard>, news: seq<Standard>, next: seq<Standard>, jobs: seq<Job>, c: Code)
    requires |next| == |standards + news|
    requires forall i | 0 <= i < |next| ::
               var s := (standards + news)[i];
               && next[i].code == s.code
               && (Rewritten(s, Group(jobs, s.code)) && MapsTo(next[i], c) ==> c == s.code)
               && (!Rewritten(s, Group(jobs, s.code)) ==> MapsTo(next[i], c) == MapsTo(s, c))
               && Rewritten(next[i], Group(jobs, next[i].code)) == Rewritten(s, Group(jobs, s.code))
    requires forall s | s in news :: Rewritten(s, Group(jobs, s.code))
    ensures !HasStandard(next, c) ==> (Mapped(next, c) <==> Survives(standards, jobs, c))
    ensures Survives(standards, jobs, c) ==> Survives(next, jobs, c)
  {
    hide MapsTo, Group, Rewritten;
    var all := standards + news;
    if i :| 0 <= i < |standards| && MapsTo(standards[i], c) && !Rewritten(standards[i], Group(jobs, standards[i].code)) {
      assert all[i] == standards[i] && MapsTo(next[i], c);
    }
    forall i | |standards| <= i < |all| ensures Rewritten(all[i], Group(jobs, all[i].code)) {
      assert all[i] == news[i - |standards|] && all[i] in news;
    }
    if !HasStandard(next, c) && Mapped(next, c) {
      var i :| 0 <= i < |next| && MapsTo(next[i], c);
      assert next[i].code != c;
      assert all[i] == standards[i];
    }
  }

  lemma NothingNew(standards: seq<Standard>, jobs: seq<Job>, order: seq<Code>)
    requires forall c | c in order :: Group(jobs, c) != []
    ensures News(standards, jobs, order) == [] <==> forall c | c in order :: HasStandard(standards, c) || Mapped(standards, c)
  {
    hide MapsTo, Group, HasStandard, Mapped, News;
    NewsAre(standards, jobs, order);
    if News(standards, jobs, order) != [] {
      assert News(standards, jobs, order)[0] in News(standards, jobs, order);
    }
  }

  /** One more pass changes nothing exactly when no posting is left without a standard or a mapping. */
  lemma FixedWhenCovered(standards: seq<Standard>, jobs: seq<Job>, order: seq<Code>)
    requires Visits(order, jobs) && RefreshAll(standards, jobs) == standards
    ensures DeriveStandards(standards, jobs, order) == standards
            <==> forall c | c in order :: HasStandard(standards, c) || Mapped(standards, c)
  {
    hide HasStandard, Mapped, Group, Refresh;
    AddMissingIsNews(standards, jobs, order);
    NothingNew(standards, jobs, order);
    if News(standards, jobs, order) == [] {
      assert standards + [] == standards;
    } else {
      assert |DeriveStandards(standards, jobs, order)| > |standards|;
    }
  }

  /** One pass is enough exactly when the mappings survive. */
  lemma StandardsSettleAtOnceWhen(standards: seq<Standard>, jobs: seq<Job>, order: seq<Code>)
    requires Visits(order, jobs)
    ensures var once := DeriveStandards(standards, jobs, order);
            DeriveStandards(once, jobs, order) == once <==> MappingsSurvive(standards, jobs, order)
  {
    hide HasStandard, Mapped, Group, Refresh, Survives, AddMissing;
    var once := DeriveStandards(standards, jobs, order);
    RefreshedTwice(AddMissing(standards, jobs, order), jobs);
    FixedWhenCovered(once, jobs, order);
    forall c | c in order
      ensures HasStandard(once, c) || Mapped(once, c) <==> (!HasStandard(standards, c) && Mapped(standards, c) ==> Survives(standards, jobs, c))
    {
      AfterPass(standards, jobs, order, c);
    }
  }

  lemma SecondPassSurvives(standards: seq<Standard>, jobs: seq<Job>, order: seq<Code>)
    requires Visits(order, jobs)
    ensures MappingsSurvive(DeriveStandards(standards, jobs, order), jobs, order)
  {
    hide HasStandard, Mapped, Group, Survives, DeriveStandards;
    var once := DeriveStandards(standards, jobs, order);
    forall c | c in order && !HasStandard(once, c) && Mapped(once, c) ensures Survives(once, jobs, c) {
      AfterPass(standards, jobs, order, c);
    }
  }

  // ----- the derivation as a whole -----

  /** A third pass changes nothing any more. */
  lemma ThirdPassIsIdle(p: Policy, jobs: seq<Job>, order: seq<Code>)
    requires DistinctJobs(jobs) && Visits(order, jobs)
    ensures var twice := Derive(Derive(p, jobs, order), jobs, order);
            Derive(twice, jobs, order) == twice
  {
    hide Route, DeriveStandards, MappingsSurvive, Group;
    var once := Derive(p, jobs, order);
    var twice := Derive(once, jobs, order);
    RoutingSettles(once, jobs, order);
    StandardsOf(p, jobs, order);
    StandardsOf(once, jobs, order);
    StandardsOf(twice, jobs, order);
    SecondPassSurvives(p.standards, jobs, order);
    StandardsSettleAtOnceWhen(once.standards, jobs, order);
  }

  lemma StandardsOf(p: Policy, jobs: seq<Job>, order: seq<Code>)
    requires forall c | c in order :: Group(jobs, c) != []
    ensures Derive(p, jobs, order).standards == DeriveStandards(p.standards, jobs, order)
  {}

  /** A second pass changes nothing exactly when no mapping of a posting without a standard is lost. */
  lemma SecondPassIsIdleWhen(p: Policy, jobs: seq<Job>, order: seq<Code>)
    requires DistinctJobs(jobs) && Visits(order, jobs)
    ensures var once := Derive(p, jobs, order);
            Derive(once, jobs, order) == once <==> MappingsSurvive(p.standards, jobs, order)
  {
    hide Route, DeriveStandards, MappingsSurvive, Group;
    var once := Derive(p, jobs, order);
    RoutingSettles(p, jobs, order);
    StandardsOf(p, jobs, order);
    StandardsOf(once, jobs, order);
    StandardsSettleAtOnceWhen(p.standards, jobs, order);
  }

  /** In particular one pass is enough when every generated standard that is rewritten lists its own
      posting only. */
  lemma OwnPostingsSettleAtOnce(p: Policy, jobs: seq<Job>, order: seq<Code>)
    requires DistinctJobs(jobs) && Visits(order, jobs)
    requires forall s, c | s in p.standards && Rewritten(s, Group(jobs, s.code)) && MapsTo(s, c) :: c == s.code
    ensures var once := Derive(p, jobs, order);
            Derive(once, jobs, order) == once
  {
    hide Derive, Rewritten, MapsTo, Group;
    forall c | c in order && !HasStandard(p.standards, c) && Mapped(p.standards, c) ensures Survives(p.standards, jobs, c) {
      var i :| 0 <= i < |p.standards| && MapsTo(p.standards[i], c);
      assert p.standards[i] in p.standards && p.standards[i].code != c;
    }
    SecondPassIsIdleWhen(p, jobs, order);
  }

  /** After two passes every posting is covered. */
  lemma TwoPassesCover(p: Policy, jobs: seq<Job>, order: seq<Code>, c: Code)
    requires DistinctJobs(jobs) && Visits(order, jobs) && Group(jobs, c) != []
    ensures var twice := Derive(Derive(p, jobs, order), jobs, order);
            HasStandard(twice.standards, c) || Mapped(twice.standards, c)
  {
    hide Derive, DeriveStandards, HasStandard, Mapped, Group, AddMissing;
    var once := Derive(p, jobs, order);
    var twice := Derive(once, jobs, order);
    ThirdPassIsIdle(p, jobs, order);
    StandardsOf(once, jobs, order);
    StandardsOf(twice, jobs, order);
    DerivedIsRefreshed(once.standards, jobs, order);
    FixedWhenCovered(twice.standards, jobs, order);
    assert c in order;
  }

  lemma DerivedIsRefreshed(standards: seq<Standard>, jobs: seq<Job>, order: seq<Code>)
    requires forall c | c in order :: Group(jobs, c) != []
    ensures RefreshAll(DeriveStandards(standards, jobs, order), jobs) == DeriveStandards(standards, jobs, order)
  {
    hide AddMissing, Refresh, Group;
    RefreshedTwice(AddMissing(standards, jobs, order), jobs);
  }

  /** Existing standards stay, in place; those made by hand are not touched. */
  lemma StandardsKept(p: Policy, jobs: seq<Job>, order: seq<Code>, i: nat)
    requires Visits(order, jobs) && i < |p.standards|
    ensures var next := Derive(p, jobs, order).standards;
            && |p.standards| <= |next| && next[i].code == p.standards[i].code
            && (!p.standards[i].generated ==> next[i] == p.standards[i])
  {
    hide Route, Group, News, Refresh, AddMissing;
    AddMissingIsNews(p.standards, jobs, order);
    RefreshKeeps(p.standards[i], Group(jobs, p.standards[i].code));
    HandMadeUntouched(p.standards[i], Group(jobs, p.standards[i].code));
    assert (p.standards + News(p.standards, jobs, order))[i] == p.standards[i];
  }

  lemma HandMadeUntouched(s: Standard, group: seq<Job>)
    ensures !s.generated ==> Refresh(s, group) == s
  {}

  // ----- one pass is not always enough -----

  const OWN := Requirement("does work", "", [])

  function ExampleJobs(): seq<Job> { [Job(1, true, "x", "p", "a", OWN), Job(2, true, "x", "p", "b", OWN)] }

  function ExampleOrder(): seq<Code> { [StandardCode("x", "a"), StandardCode("x", "b")] }

  /** A generated standard that was edited to take a second posting as well. */
  function ExamplePolicy(): Policy {
    Policy([], [], [Standard(StandardCode("x", "a"), "a", "x", ["a", "b"], true, true, [], 0, [], None, OWN, NoIssue)])
  }

  lemma ExampleNames()
    ensures Normal("x") == "x" && Normal("p") == "p" && Normal("a") == "a" && Normal("b") == "b"
  {
    assert "x"[1..] == "" && "p"[1..] == "" && "a"[1..] == "" && "b"[1..] == "";
  }

  lemma ExampleGroups(code: Code)
    ensures Group(ExampleJobs(), code)
            == if code == StandardCode("x", "a") then [ExampleJobs()[0]]
               else if code == StandardCode("x", "b") then [ExampleJobs()[1]] else []
  {
    ExampleNames();
    var jobs := ExampleJobs();
    var last := [jobs[1]];
    assert jobs[1..] == last && last[1..] == [];
    assert CodeOf(jobs[0]) == StandardCode("x", "a") && CodeOf(jobs[1]) == StandardCode("x", "b");
    assert Group(last, code) == (if code == StandardCode("x", "b") then [jobs[1]] else []) + Group([], code);
    assert Group(jobs, code) == (if code == StandardCode("x", "a") then [jobs[0]] else []) + Group(last, code);
  }

  lemma ExampleMapping()
    ensures var s := ExamplePolicy().standards[0];
            && MapsTo(s, ExampleOrder()[1]) && Rewritten(s, Group(ExampleJobs(), s.code)) && s.code == ExampleOrder()[0]
  {
    hide Group, Normal;
    ExampleNames();
    ExampleGroups(ExamplePolicy().standards[0].code);
    assert Normal(ExamplePolicy().standards[0].applications[1]) == "b";
  }

  lemma ExampleVisits()
    ensures DistinctJobs(ExampleJobs()) && Visits(ExampleOrder(), ExampleJobs())
  {
    hide Group;
    var jobs, order := ExampleJobs(), ExampleOrder();
    assert jobs[0].jobId == 1 && jobs[1].jobId == 2;
    assert order[0] != order[1];
    forall c ensures c in order <==> Group(jobs, c) != [] {
      ExampleGroups(c);
      assert order == [order[0], order[1]];
    }
  }

  /** A concrete policy for which the second pass still changes something: the first pass rewrites the
      only mapping of posting b, and the second one has to give b a standard of its own. */
  lemma OnePassIsNotEnough()
    ensures DistinctJobs(ExampleJobs()) && Visits(ExampleOrder(), ExampleJobs())
    ensures var once := Derive(ExamplePolicy(), ExampleJobs(), ExampleOrder());
            Derive(once, ExampleJobs(), ExampleOrder()) != once
  {
    hide Group, Derive, MapsTo, Rewritten, DistinctJobs, ExampleJobs;
    var jobs, order, p := ExampleJobs(), ExampleOrder(), ExamplePolicy();
    ExampleVisits();
    ExampleMapping();
    var b := order[1];
    assert p.standards == [p.standards[0]];
    assert b in order && !HasStandard(p.standards, b) && Mapped(p.standards, b) && !Survives(p.standards, jobs, b);
    SecondPassIsIdleWhen(p, jobs, order);
  }

  // ----- the program's loops -----

  method KeepRules(rules: seq<Rule>, jobs: seq<Job>) returns (kept: seq<Rule>)
    ensures kept == Kept(rules, jobs)
  {
    kept := [];
    for i := 0 to |rules|
      invariant kept + Kept(rules[i..], jobs) == Kept(rules, jobs)
    {
      assert rules[i..][1..] == rules[i + 1..];
      if KnownJob(jobs, rules[i].jobId) {
        kept := kept + [rules[i]];
      }
    }
  }

  method RouteJobs(pools: seq<Pool>, rules: seq<Rule>, jobs: seq<Job>) returns (p: seq<Pool>, r: seq<Rule>)
    ensures (p, r) == Route(pools, rules, jobs)
  {
    p, r := pools, rules;
    for i := 0 to |jobs|
      invariant Route(p, r, jobs[i..]) == Route(pools, rules, jobs)
    {
      assert jobs[i..][1..] == jobs[i + 1..];
      var j := jobs[i];
      if Usable(j) {
        if FindPool(p, PoolOf(j)).None? {
          p := p + [Pool(PoolOf(j), j.entity, j.position, true, true)];
        }
        var k := FindRule(r, j.jobId);
        if k.None? {
          r := r + [Rule(j.jobId, PoolOf(j), false, [], [], 0)];
        } else if EntityOf(p, r[k.value].poolCode) != Normal(j.entity) {
          r := r[k.value := r[k.value].(poolCode := PoolOf(j), active := false)];
        }
      }
    }
  }

  lemma {:induction false} GroupSnoc(jobs: seq<Job>, j: Job, code: Code)
    ensures Group(jobs + [j], code) == Group(jobs, code) + InGroup(j, code)
  {
    hide Group;
    GroupCons(j, [], code);
    if jobs == [] {
      assert jobs + [j] == [j] + [];
      GroupOfNone(code);
    } else {
      assert jobs == [jobs[0]] + jobs[1..] && jobs + [j] == [jobs[0]] + (jobs[1..] + [j]);
      GroupCons(jobs[0], jobs[1..], code);
      GroupCons(jobs[0], jobs[1..] + [j], code);
      GroupSnoc(jobs[1..], j, code);
      assert InGroup(jobs[0], code) + (Group(jobs[1..], code) + InGroup(j, code))
          == (InGroup(jobs[0], code) + Group(jobs[1..], code)) + InGroup(j, code);
    }
  }

  lemma GroupOfNone(code: Code)
    ensures Group([], code) == []
  {}

  lemma GroupCons(j: Job, jobs: seq<Job>, code: Code)
    ensures Group([j] + jobs, code) == InGroup(j, code) + Group(jobs, code)
  {
    hide InGroup;
    assert ([j] + jobs)[1..] == jobs;
  }

  method GroupJobs(jobs: seq<Job>) returns (groups: map<Code, seq<Job>>)
    ensures forall c :: c in groups <==> Group(jobs, c) != []
    ensures forall c | c in groups :: groups[c] == Group(jobs, c)
  {
    hide Posted, CodeOf, Group;
    groups := map[];
    EmptyGroups();
    for i := 0 to |jobs|
      invariant forall c :: c in groups <==> Group(jobs[..i], c) != []
      invariant forall c | c in groups :: groups[c] == Group(jobs[..i], c)
    {
      assert jobs[..i + 1] == jobs[..i] + [jobs[i]];
      forall c ensures Group(jobs[..i + 1], c) == Group(jobs[..i], c) + InGroup(jobs[i], c) {
        GroupSnoc(jobs[..i], jobs[i], c);
      }
      if Posted(jobs[i]) {
        var code := CodeOf(jobs[i]);
        groups := groups[code := (if code in groups then groups[code] else []) + [jobs[i]]];
      }
    }
    assert jobs[..|jobs|] == jobs;
  }

  lemma EmptyGroups()
    ensures forall c :: Group([], c) == []
  {}

  method AddStandards(standards: seq<Standard>, jobs: seq<Job>, groups: map<Code, seq<Job>>, order: seq<Code>)
    returns (next: seq<Standard>)
    requires forall c | c in order :: c in groups && groups[c] == Group(jobs, c) != []
    ensures next == AddMissing(standards, jobs, order)
  {
    hide Group, HasStandard, Mapped;
    next := standards;
    for i := 0 to |order|
      invariant AddMissing(next, jobs, order[i..]) == AddMissing(standards, jobs, order)
    {
      assert order[i..][1..] == order[i + 1..];
      var c := order[i];
      if !HasStandard(next, c) && !Mapped(next, c) {
        var j := groups[c][0];
        next := next + [Standard(c, j.posting, j.entity, [j.posting], true, true, [], 0, [], None, Requirement("", "", []), NoIssue)];
      }
    }
  }

  method RefreshStandards(standards: seq<Standard>, jobs: seq<Job>, groups: map<Code, seq<Job>>) returns (next: seq<Standard>)
    requires forall c :: c in groups <==> Group(jobs, c) != []
    requires forall c | c in groups :: groups[c] == Group(jobs, c)
    ensures next == RefreshAll(standards, jobs)
  {
    hide Group, Refresh;
    next := standards;
    for i := 0 to |standards|
      invariant |next| == |standards|
      invariant forall k | 0 <= k < |standards| ::
        next[k] == if k < i then Refresh(standards[k], Group(jobs, standards[k].code)) else standards[k]
    {
      var code := next[i].code;
      var group := if code in groups then groups[code] else [];
      var s := RefreshOne(next[i], group);
      next := next[i := s];
    }
    assert forall k | 0 <= k < |standards| :: next[k] == RefreshAll(standards, jobs)[k];
  }

  /** One turn of the refresh loop, field by field. */
  method RefreshOne(standard: Standard, group: seq<Job>) returns (s: Standard)
    ensures s == Refresh(standard, group)
  {
    hide Normal, Agree;
    s := standard;
    if !s.generated {
      return;
    }
    s := s.(issue := NoIssue, sourceJobs := []);
    var source: Option<Job> := None;
    var conflict := false;
    for i := 0 to |group|
      invariant s == standard.(issue := NoIssue, sourceJobs := JobIds(group)[..i])
      invariant source == SourceIn(group[..i], standard.sourceJob)
      invariant conflict <==> exists k :: 0 <= k < i && !Agree(group[0], group[k])
    {
      assert group[..i + 1][..i] == group[..i];
      s := s.(sourceJobs := s.sourceJobs + [group[i].jobId]);
      conflict := conflict || !Agree(group[0], group[i]);
      if group[i].jobId == s.sourceJob {
        source := Some(group[i]);
      }
    }
    assert group[..|group|] == group && JobIds(group)[..|group|] == JobIds(group);
    if group == [] || (s.sourceJob > 0 && source.None?) {
      s := s.(issue := SourceJobMissing);
      return;
    }
    s := s.(pool := Some(PoolOf(group[0])), entity := group[0].entity, name := group[0].posting, applications := [group[0].posting]);
    if source.None? {
      if conflict {
        s := s.(issue := SourceJobConflict);
        return;
      }
      source := Some(group[0]);
    }
    s := s.(pool := Some(PoolOf(source.value)), requirement := source.value.requirement);
    if s.requirement.responsibilities == "" {
      s := s.(issue := ResponsibilityMissing);
    }
  }

  /** deriveJobPolicy. */
  method DeriveJobPolicy(p: Policy, jobs: seq<Job>, order: seq<Code>) returns (next: Policy)
    requires Visits(order, jobs)
    ensures next == Derive(p, jobs, order)
  {
    hide Group, Route, AddMissing, RefreshAll;
    var kept := KeepRules(p.rules, jobs);
    var pools, rules := RouteJobs(p.pools, kept, jobs);
    var groups := GroupJobs(jobs);
    var standards := AddStandards(p.standards, jobs, groups, order);
    standards := RefreshStandards(standards, jobs, groups);
    next := Policy(pools, rules, standards);
  }
}
