/** The allocation snapshot and decision records exchanged with the Kernel.
    References such as "qualification-7" are represented by their numeric part. */
module AllocationTypes {
  datatype Tag = Tag(
    code: string, status: string, confidenceBps: int, source: string,
    assertionRef: string, verified: bool)

  datatype Member = Member(
    memberId: int, candidateRef: int, applicationRef: int,
    qualificationRef: int, qualificationRevision: int, memberRevision: int,
    workflowRevision: int, sourceRevision: int, standardRef: string, standardHash: string,
    createdAt: int, tags: seq<Tag>, allowed: seq<int>, counted: seq<int>)

  datatype Reception = Receiving | Paused | Closed

  datatype Demand = Demand(
    demandId: nat, departmentRef: int, revision: int, reception: Reception,
    required: seq<string>, preferred: seq<string>, priority: int,
    recentSupply: int, lastSequence: int)

  datatype Snapshot = Snapshot(
    taskId: int, generation: int, at: int, scope: int, scopeRevision: int,
    policyRevision: int, epoch: int, nextSequence: int,
    members: seq<Member>, demands: seq<Demand>)

  datatype Action = Wait | Assign

  datatype Reason = NoActiveMapping | NoReceivingDemand | RequiredTagsUnavailable | Allocated

  datatype Decision = Decision(
    memberId: int, qualificationRef: int, action: Action, demandId: nat, departmentRef: int,
    matchedTags: seq<string>, assertionRefs: seq<string>, order: seq<int>, sequence: int,
    reason: Reason)

  /** The most members of one task. */
  const TASK_LIMIT: nat := 100

  ghost predicate DistinctMembers(members: seq<Member>) {
    forall i, j | 0 <= i < j < |members| :: members[i].memberId != members[j].memberId
  }

  ghost predicate DistinctDemands(demands: seq<Demand>) {
    forall i, j | 0 <= i < j < |demands| :: demands[i].demandId != demands[j].demandId
  }

  ghost predicate DistinctCodes(tags: seq<Tag>) {
    forall i, j | 0 <= i < j < |tags| :: tags[i].code != tags[j].code
  }

  /** What the snapshot builder guarantees: member ids and demand ids are primary keys and a
      member carries each tag code once. */
  ghost predicate WellKeyed(s: Snapshot) {
    && DistinctMembers(s.members)
    && DistinctDemands(s.demands)
    && (forall m | m in s.members :: DistinctCodes(m.tags))
  }
}
