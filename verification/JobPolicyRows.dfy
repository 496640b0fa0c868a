/** What the derivation leaves behind, said on the fields of jobs, rules and standards. */
module JobPolicyRows {
  import opened AllocationStore
  import opened JobPolicy

  // ----- names -----

  /** Names are normalised character by character: white space goes, capitals become small letters. */
  lemma NormalOnRows(c: char, s: string, t: string)
    ensures Normal(s + t) == Normal(s) + Normal(t)
    ensures Normal([c]) == if c in " \t\n\r" then "" else if 'A' <= c <= 'Z' then [(c as int + 32) as char] else [c]
  {
    NormalAppend(s, t);
    assert [c][1..] == "";
  }

  lemma {:induction false} NormalAppend(s: string, t: string)
    ensures Normal(s + t) == Normal(s) + Normal(t)
  {
    if s == "" {
      assert s + t == t;
    } else {
      assert (s + t)[1..] == s[1..] + t;
      NormalAppend(s[1..], t);
    }
  }

  // ----- first rows -----

  ghost predicate FirstPool(pools: seq<Pool>, code: Code, k: int) {
    0 <= k < |pools| && pools[k].code == code && forall i | 0 <= i < k :: pools[i].code != code
  }

  lemma {:induction false} FindPoolOnRows(pools: seq<Pool>, code: Code)
    ensures FindPool(pools, code).None? <==> forall k | 0 <= k < |pools| :: pools[k].code != code
    ensures FindPool(pools, code).Some? ==> exists k :: FirstPool(pools, code, k) && pools[k] == FindPool(pools, code).value
  {
    if pools != [] && pools[0].code != code {
      FindPoolOnRows(pools[1..], code);
      assert forall k | 0 <= k < |pools[1..]| :: pools[1..][k] == pools[k + 1];
      if FindPool(pools, code).Some? {
        var k :| FirstPool(pools[1..], code, k) && pools[1..][k] == FindPool(pools, code).value;
        assert FirstPool(pools, code, k + 1);
      }
    } else if pools != [] {
      assert FirstPool(pools, code, 0);
    }
  }

  ghost predicate FirstRule(rules: seq<Rule>, jobId: nat, k: int) {
    0 <= k < |rules| && rules[k].jobId == jobId && forall i | 0 <= i < k :: rules[i].jobId != jobId
  }

  lemma {:induction false} FindRuleOnRows(rules: seq<Rule>, jobId: nat)
    ensures FindRule(rules, jobId).None? <==> forall k | 0 <= k < |rules| :: rules[k].jobId != jobId
    ensures FindRule(rules, jobId).Some? ==> FirstRule(rules, jobId, FindRule(rules, jobId).value)
  {
    if rules != [] && rules[0].jobId != jobId {
      FindRuleOnRows(rules[1..], jobId);
      assert forall k | 0 <= k < |rules[1..]| :: rules[1..][k] == rules[k + 1];
    }
  }

  // ----- routing -----

  /** An active job with a named entity and position. */
  predicate Routable(j: Job) { j.active && Normal(j.entity) != "" && Normal(j.position) != "" }

  /** When the turn of job i comes, the code stands for a pool of the job's entity: a pool that was there
      before, or one made for an earlier job or for this one. */
  ghost predicate Belongs(pools: seq<Pool>, jobs: seq<Job>, i: nat, code: Code)
    requires i < |jobs|
  {
    if exists k :: FirstPool(pools, code, k)
    then exists k :: FirstPool(pools, code, k) && Normal(pools[k].entity) == Normal(jobs[i].entity)
    else code.PoolCode? && code.entity == Normal(jobs[i].entity) && exists n :: 0 <= n <= i && MakesPool(jobs[n], code)
  }

  predicate MakesPool(j: Job, code: Code) { Routable(j) && code == PoolCode(Normal(j.entity), Normal(j.position)) }

  /** The rule of job i after the loop: a new one is switched off and asks for nothing; one that points to a
      pool of another entity is redirected and switched off; any other stays as it is. */
  ghost predicate RuleAfter(pools: seq<Pool>, before: seq<Rule>, jobs: seq<Job>, i: nat, r: Rule)
    requires i < |jobs|
  {
    var own := PoolCode(Normal(jobs[i].entity), Normal(jobs[i].position));
    && ((forall k | 0 <= k < |before| :: before[k].jobId != jobs[i].jobId) ==> r == Rule(jobs[i].jobId, own, false, [], [], 0))
    && forall k | FirstRule(before, jobs[i].jobId, k) ::
         r == if Belongs(pools, jobs, i, before[k].poolCode) then before[k] else before[k].(poolCode := own, active := false)
  }

  lemma EntityOnRows(pools: seq<Pool>, j: Job, jobs: seq<Job>, code: Code)
    requires jobs != [] && jobs[0] == j && Routable(j)
    ensures EntityOf(WithPool(pools, j), code) == Normal(j.entity) <==> Belongs(pools, jobs, 0, code)
  {
    hide Normal, FindPool;
    FindPoolOnRows(pools, code);
    FindPoolOnRows(pools, PoolOf(j));
    var made := Pool(PoolOf(j), j.entity, j.position, true, true);
    FindPoolAppend(pools, [made], code);
    FindPoolOnRows([made], code);
    if FindPool(pools, code).Some? {
      var k :| FirstPool(pools, code, k) && pools[k] == FindPool(pools, code).value;
      assert forall l | FirstPool(pools, code, l) :: l == k;
    } else {
      assert forall k :: !FirstPool(pools, code, k);
      assert [made][0].code == PoolOf(j);
      if FindPool([made], code).Some? {
        var k :| FirstPool([made], code, k) && [made][k] == FindPool([made], code).value;
        assert MakesPool(jobs[0], code);
      }
    }
  }

  lemma BelongsLater(pools: seq<Pool>, jobs: seq<Job>, i: nat, code: Code)
    requires 0 < i < |jobs|
    ensures var wide := if Routable(jobs[0]) then WithPool(pools, jobs[0]) else pools;
            Belongs(wide, jobs[1..], i - 1, code) <==> Belongs(pools, jobs, i, code)
  {
    hide Normal, FindPool;
    var rest, j := jobs[1..], jobs[0];
    assert forall n | 0 <= n < |rest| :: rest[n] == jobs[n + 1];
    var wide := if Routable(j) then WithPool(pools, j) else pools;
    FindPoolOnRows(pools, PoolOf(j));
    if k :| FirstPool(pools, code, k) {
      assert FirstPool(wide, code, k);
      assert forall l | FirstPool(wide, code, l) :: l == k;
      assert forall l | FirstPool(pools, code, l) :: l == k;
    } else {
      FindPoolOnRows(pools, code);
      if MakesPool(j, code) {
        assert FirstPool(wide, code, |pools|);
        assert forall l | FirstPool(wide, code, l) :: l == |pools|;
      } else {
        assert forall l :: !FirstPool(wide, code, l);
        LaterMakers(jobs, i, code);
      }
    }
  }

  lemma LaterMakers(jobs: seq<Job>, i: nat, code: Code)
    requires 0 < i < |jobs| && !MakesPool(jobs[0], code)
    ensures (exists n :: 0 <= n <= i && MakesPool(jobs[n], code)) <==> (exists n :: 0 <= n <= i - 1 && MakesPool(jobs[1..][n], code))
  {
    if n :| 0 <= n <= i && MakesPool(jobs[n], code) {
      assert jobs[1..][n - 1] == jobs[n];
    }
    if n :| 0 <= n <= i - 1 && MakesPool(jobs[1..][n], code) {
      assert jobs[1..][n] == jobs[n + 1];
    }
  }

  lemma RuleHere(pools: seq<Pool>, rules: seq<Rule>, jobs: seq<Job>)
    requires jobs != [] && Routable(jobs[0])
    ensures var next := WithRule(rules, WithPool(pools, jobs[0]), jobs[0]);
            FindRule(next, jobs[0].jobId).Some? && RuleAfter(pools, rules, jobs, 0, next[FindRule(next, jobs[0].jobId).value])
  {
    hide Normal, FindPool, FindRule, WithPool, Belongs, EntityOf;
    var j := jobs[0];
    var wide := WithPool(pools, j);
    FindRuleOnRows(rules, j.jobId);
    match FindRule(rules, j.jobId) {
      case None => FindRuleAppend(rules, Rule(j.jobId, PoolOf(j), false, [], [], 0), j.jobId);
      case Some(k) =>
        EntityOnRows(pools, j, jobs, rules[k].poolCode);
        FindRuleUpdate(rules, k, rules[k].(poolCode := PoolOf(j), active := false), j.jobId);
        assert forall l | FirstRule(rules, j.jobId, l) :: l == k;
    }
  }

  lemma RuleLater(pools: seq<Pool>, rules: seq<Rule>, next: seq<Rule>, jobs: seq<Job>, i: nat, r: Rule)
    requires 0 < i < |jobs| && SameRule(rules, next, jobs[i].jobId)
    requires var wide := if Routable(jobs[0]) then WithPool(pools, jobs[0]) else pools;
             RuleAfter(wide, next, jobs[1..], i - 1, r)
    ensures RuleAfter(pools, rules, jobs, i, r)
  {
    hide Normal, FindPool, FindRule, WithPool, Belongs;
    var id := jobs[i].jobId;
    assert jobs[1..][i - 1] == jobs[i];
    FindRuleOnRows(rules, id);
    FindRuleOnRows(next, id);
    forall k | FirstRule(rules, id, k)
      ensures var own := PoolCode(Normal(jobs[i].entity), Normal(jobs[i].position));
              r == if Belongs(pools, jobs, i, rules[k].poolCode) then rules[k] else rules[k].(poolCode := own, active := false)
    {
      var l := FindRule(next, id).value;
      assert l == FindRule(rules, id).value == k && next[l] == rules[k] && FirstRule(next, id, l);
      BelongsLater(pools, jobs, i, rules[k].poolCode);
    }
  }

  lemma {:induction false} RouteOnRows(pools: seq<Pool>, rules: seq<Rule>, jobs: seq<Job>, i: nat)
    requires DistinctJobs(jobs) && i < |jobs|
    ensures var r := Route(pools, rules, jobs).1;
            if Routable(jobs[i])
            then FindRule(r, jobs[i].jobId).Some? && RuleAfter(pools, rules, jobs, i, r[FindRule(r, jobs[i].jobId).value])
            else SameRule(rules, r, jobs[i].jobId)
    decreases |jobs|
  {
    hide Normal, FindPool, FindRule, WithPool, WithRule, RuleAfter;
    var j, rest := jobs[0], jobs[1..];
    assert forall n | 0 <= n < |rest| :: rest[n] == jobs[n + 1];
    var wide := if Usable(j) then WithPool(pools, j) else pools;
    var next := if Usable(j) then WithRule(rules, wide, j) else rules;
    if i == 0 {
      RouteElsewhere(wide, next, rest, j.jobId);
      if Usable(j) {
        RuleHere(pools, rules, jobs);
      }
    } else {
      WithRuleSettles(rules, wide, j, jobs[i].jobId);
      assert SameRule(rules, next, jobs[i].jobId);
      RouteOnRows(wide, next, rest, i - 1);
      if Routable(jobs[i]) {
        var r := Route(pools, rules, jobs).1;
        RuleLater(pools, rules, next, jobs, i, r[FindRule(r, jobs[i].jobId).value]);
      }
    }
  }

  lemma {:induction false} KeptAppend(a: seq<Rule>, b: seq<Rule>, jobs: seq<Job>)
    ensures Kept(a + b, jobs) == Kept(a, jobs) + Kept(b, jobs)
  {
    hide KnownJob;
    if a == [] {
      assert a + b == b;
    } else {
      assert (a + b)[1..] == a[1..] + b;
      KeptAppend(a[1..], b, jobs);
    }
  }

  /** Rules of jobs that no longer exist go, the others stay in order. */
  lemma KeptOnRows(a: seq<Rule>, b: seq<Rule>, jobs: seq<Job>, r: Rule)
    ensures Kept(a + b, jobs) == Kept(a, jobs) + Kept(b, jobs)
    ensures Kept([r], jobs) == if Names(jobs, r.jobId) then [r] else []
  {
    KeptAppend(a, b, jobs);
    assert [r][1..] == [];
    if j :| j in jobs && j.jobId == r.jobId {
      var k :| 0 <= k < |jobs| && jobs[k] == j;
    }
  }

  /** After the derivation every active job with a named entity and position has a pool and a rule, the
      rule being what the job, the earlier rule and the pools at its turn make of it. */
  lemma RoutedOutcome(p: Policy, jobs: seq<Job>, order: seq<Code>, i: nat)
    requires (forall a, b | 0 <= a < b < |jobs| :: jobs[a].jobId != jobs[b].jobId) && i < |jobs| && Routable(jobs[i])
    requires forall c | c in order :: Group(jobs, c) != []
    ensures var d := Derive(p, jobs, order);
            && (exists k :: FirstPool(d.pools, PoolCode(Normal(jobs[i].entity), Normal(jobs[i].position)), k))
            && exists k :: FirstRule(d.rules, jobs[i].jobId, k) && RuleAfter(p.pools, Kept(p.rules, jobs), jobs, i, d.rules[k])
  {
    hide Normal, FindPool, FindRule, Route, Kept, RuleAfter, AddMissing, RefreshAll, Group;
    var kept := Kept(p.rules, jobs);
    RouteOnRows(p.pools, kept, jobs, i);
    RouteSettles(p.pools, kept, jobs);
    var (pools, rules) := Route(p.pools, kept, jobs);
    FindRuleOnRows(rules, jobs[i].jobId);
    assert Usable(jobs[i]) && FindPool(pools, PoolOf(jobs[i])).Some?;
    FindPoolOnRows(pools, PoolOf(jobs[i]));
    var m :| FirstPool(pools, PoolOf(jobs[i]), m) && pools[m] == FindPool(pools, PoolOf(jobs[i])).value;
    assert FirstPool(Derive(p, jobs, order).pools, PoolCode(Normal(jobs[i].entity), Normal(jobs[i].position)), m);
    var k := FindRule(rules, jobs[i].jobId).value;
    assert FirstRule(rules, jobs[i].jobId, k) && RuleAfter(p.pools, kept, jobs, i, rules[k]);
  }

  // ----- standards -----

  /** An active job whose entity, position and posting are named. */
  predicate Advertised(j: Job, code: Code) {
    Routable(j) && Normal(j.posting) != "" && code == StandardCode(Normal(j.entity), Normal(j.posting))
  }

  lemma {:induction false} GroupAppend(a: seq<Job>, b: seq<Job>, code: Code)
    ensures Group(a + b, code) == Group(a, code) + Group(b, code)
  {
    hide InGroup;
    if a == [] {
      assert a + b == b;
    } else {
      assert (a + b)[1..] == a[1..] + b;
      GroupAppend(a[1..], b, code);
    }
  }

  /** The jobs behind a posting, in the order of the jobs. */
  lemma GroupOnRows(a: seq<Job>, b: seq<Job>, code: Code, j: Job)
    ensures Group(a + b, code) == Group(a, code) + Group(b, code)
    ensures Group([j], code) == if Advertised(j, code) then [j] else []
  {
    hide Normal;
    GroupAppend(a, b, code);
    assert [j][1..] == [];
  }

  /** Some standard has the code, or lists the posting for the same entity. */
  predicate Served(standards: seq<Standard>, entity: string, posting: string) {
    exists i :: 0 <= i < |standards| &&
      (standards[i].code == StandardCode(entity, posting) || (Normal(standards[i].entity) == entity && Lists(standards[i], posting)))
  }

  predicate Lists(s: Standard, posting: string) { exists k :: 0 <= k < |s.applications| && Normal(s.applications[k]) == posting }

  lemma ServedMeans(standards: seq<Standard>, entity: string, posting: string)
    ensures Served(standards, entity, posting) <==>
              HasStandard(standards, StandardCode(entity, posting)) || Mapped(standards, StandardCode(entity, posting))
  {
    hide Normal;
    if i :| 0 <= i < |standards| && Normal(standards[i].entity) == entity && Lists(standards[i], posting) {
      assert MapsTo(standards[i], StandardCode(entity, posting));
    }
    if i :| 0 <= i < |standards| && MapsTo(standards[i], StandardCode(entity, posting)) {
      assert Lists(standards[i], posting);
    }
  }

  /** New standards come after the old ones, one for every posting that no standard serves; each takes
      its names from the first job behind the posting and has neither tags nor a source. */
  lemma NewStandardsOnRows(standards: seq<Standard>, jobs: seq<Job>, order: seq<Code>, c: Code)
    requires Visits(order, jobs) && c in order
    ensures var all := AddMissing(standards, jobs, order);
            && |standards| <= |all| && all[..|standards|] == standards
            && c.StandardCode? && (!Served(standards, c.entity, c.name) <==> exists k :: |standards| <= k < |all| && all[k].code == c)
            && forall k | |standards| <= k < |all| && all[k].code == c ::
                 var j := Group(jobs, c)[0];
                 all[k] == Standard(c, j.posting, j.entity, [j.posting], true, true, [], 0, [], None, Requirement("", "", []), NoIssue)
  {
    hide Normal, HasStandard, Mapped, News, Served, AddMissing;
    AddMissingIsNews(standards, jobs, order);
    NewsAre(standards, jobs, order);
    GroupCodes(jobs, c);
    assert Group(jobs, c)[0] in Group(jobs, c);
    ServedMeans(standards, c.entity, c.name);
    var news, all := News(standards, jobs, order), AddMissing(standards, jobs, order);
    forall k | |standards| <= k < |all| ensures all[k] == news[k - |standards|] && all[k] in news {}
    if !Served(standards, c.entity, c.name) {
      var k :| 0 <= k < |news| && news[k] == NewStandard(jobs, c);
      assert all[|standards| + k] == news[k];
    }
  }

  /** Two jobs behind one posting ask for different things. */
  predicate Differ(group: seq<Job>) {
    exists a, b :: 0 <= a < |group| && 0 <= b < |group|
      && (Normal(group[a].position) != Normal(group[b].position) || group[a].requirement != group[b].requirement)
  }

  lemma DifferMeans(group: seq<Job>)
    requires group != []
    ensures Differ(group) <==> Conflicting(group)
  {
    hide Normal;
  }

  lemma {:induction false} SourceOnRows(group: seq<Job>, jobId: nat)
    ensures SourceIn(group, jobId).None? <==> forall j | j in group :: j.jobId != jobId
    ensures SourceIn(group, jobId).Some? ==> SourceIn(group, jobId).value in group && SourceIn(group, jobId).value.jobId == jobId
  {
    if group != [] {
      SourceOnRows(group[..|group| - 1], jobId);
      assert group == group[..|group| - 1] + [group[|group| - 1]];
    }
  }

  predicate Names(group: seq<Job>, jobId: nat) { exists j :: j in group && j.jobId == jobId }

  /** A standard made by hand stays as it is. A generated one lists the jobs behind its posting. Without any,
      or with a source that is not among them, it is only marked. Otherwise it takes the posting's names from
      the first job, and position and requirement from its source, which is the chosen job or, when none is
      chosen and all agree, the first; jobs that differ are marked as a conflict, a source without
      responsibilities is marked as incomplete. */
  lemma RefreshOutcome(s: Standard, group: seq<Job>)
    requires forall a, b | 0 <= a < b < |group| :: group[a].jobId != group[b].jobId
    ensures !s.generated ==> Refresh(s, group) == s
    ensures s.generated ==>
              var r := Refresh(s, group);
              && r.sourceJobs == JobIds(group)
              && (if group == [] || (s.sourceJob > 0 && !Names(group, s.sourceJob))
                  then r == s.(sourceJobs := r.sourceJobs, issue := SourceJobMissing)
                  else
                    && r == s.(sourceJobs := r.sourceJobs, entity := group[0].entity, name := group[0].posting, applications := [group[0].posting],
                               pool := r.pool, requirement := r.requirement, issue := r.issue)
                    && (if !Names(group, s.sourceJob) && Differ(group)
                        then r.issue == SourceJobConflict && r.requirement == s.requirement
                             && r.pool == Some(PoolCode(Normal(group[0].entity), Normal(group[0].position)))
                        else exists j :: j in group && Source(group, s.sourceJob, j) && TakesFrom(r, j)))
  {
    hide Normal, SourceIn, Conflicting, Differ;
    SourceOnRows(group, s.sourceJob);
    if group != [] {
      DifferMeans(group);
      assert group[0] in group;
      if s.generated && SourceIn(group, s.sourceJob).Some? {
        assert Source(group, s.sourceJob, SourceIn(group, s.sourceJob).value);
        assert TakesFrom(Refresh(s, group), SourceIn(group, s.sourceJob).value);
      } else if s.generated && s.sourceJob == 0 && !Conflicting(group) {
        assert Source(group, s.sourceJob, group[0]) && TakesFrom(Refresh(s, group), group[0]);
      }
    }
  }

  predicate Source(group: seq<Job>, chosen: nat, j: Job)
    requires group != []
  {
    if Names(group, chosen) then j.jobId == chosen else j == group[0]
  }

  predicate TakesFrom(r: Standard, j: Job) {
    && r.pool == Some(PoolCode(Normal(j.entity), Normal(j.position))) && r.requirement == j.requirement
    && r.issue == if j.requirement.responsibilities == "" then ResponsibilityMissing else NoIssue
  }
}
