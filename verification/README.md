# Allocation engine and candidate lifecycle: a verified model

The platform screens job applications and hands screened candidates to departments. This project
models the two parts of it whose correctness depends on many small decisions working together, and
three smaller ones, and proves what they guarantee.

**The allocation engine.** Screened candidates wait in a pool scope. A background worker claims a
scope under a lease with a fence token, freezes a snapshot, lets an external service (the Kernel)
compute a plan outside any transaction, recomputes the plan itself, and commits it in a second
transaction if the tables still give the same snapshot hash. Other users may pause, cancel, retry,
screen and edit at any moment; workers may crash.

- `Orders`, `AllocationTypes`, `AllocationPolicy`: the greedy allocator, as a specification
  (least-ranked feasible demand per member, quantities fed forward) and as the program's loops.
- `AllocationCanonical`, `AllocationBatching`, `AllocationFairness`, `AllocationReference`: what the
  snapshot hash preserves, why batches of one hundred do not show, balance between tied demands, and
  the relation to the declarative reference of the design document.
- `AllocationStore`, `AllocationProtocol`: the tables, every transaction as a function on them, and
  the state machine of all interleavings. `AllocationDatabase` holds the same tables as mutable state
  and carries out the transactions statement by statement.
- `AllocationCommit`, `AllocationInvariants`, `AllocationSafety`: the inductive invariant of all runs.
- `AllocationSeries`, `AllocationWaiting`, `AllocationArrival`: the batches a scope commits in a run
  allocate as one loop, and as one plan; nobody who could be assigned is left waiting without a change
  that wakes him; and nobody is overtaken by a later arrival.
- `AllocationRows`, `AllocationWrites`: when each transaction goes through, what it reads and what it
  writes, said on the fields of the stored rows.
- `AllocationLinearisation`, `AllocationLedger`, `AllocationFencing`, `AllocationWork`,
  `AllocationQuiescence`, `AllocationPlans`: an asynchronous commit is one atomic allocation; the
  loop's running quantities are what the next snapshot reads back; leases, generations and terminal
  statuses; the work-item queue; that the engine comes to rest; and that recorded plans are never
  rewritten.

**The candidate lifecycle.** One workflow per candidate, with applications and their event log,
assignment attempts, memberships and processing items, changed by people, background analysis and
allocation commits.

- `CandidateFile`: the rows and transactions. `CandidateDesk`: the same on mutable state with rollback.
- `CandidateSafety`, `CandidateWrites`, `CandidateRuns`: what every transaction, and every run, keeps,
  and which writes always go through. `CandidateBacking`: when an allocated membership loses its attempt.
- `CandidateOutcomes`, `CandidateStages`: when each transaction goes through and what it leaves behind,
  said on the fields of the rows; and that application and attempt pass together in every run.
- `Preference`, `Continuation`: the order in which volunteers are assessed after rejections.
- `AllocationCandidate`: an allocation commit, seen from the rows of one candidate.

**Smaller parts.** `JobPolicy` (deriving pools, rules and standards from job records; `JobPolicyRows` says
on the fields of the records what it leaves behind), `Evidence` (quotes checked against page text, rankings),
`Schedules` (recurring plans).

Rows and numbers are modelled as follows. Append-only tables with generated keys are sequences indexed
by their key. Row locks make a transaction one atomic step. The snapshot hash is represented by the
canonical snapshot itself, so it is injective on canonical values; fence tokens are fresh naturals;
clocks are naturals in microseconds (allocation) or nanoseconds (schedules); the allocation clock does
not run backwards. The Kernel may answer anything, or nothing.

For a snapshot in which a waiting member's allowed ids name no demand, the code's allocator and the
design document's calculation give different reasons (`AllocationReference.PlanRefinesReference` states
exactly when they agree). The engine never builds such a snapshot: on those it builds the two agree on
every reason (`AllocationReference.BuiltPlanAgrees`).

Three statements one might expect are not true of the code. Each has a concrete counterexample and its
exact condition:

- one pass of the policy derivation settles: `JobPolicy.OnePassIsNotEnough`, and
  `JobPolicy.SecondPassIsIdleWhen`;
- the next run of a plan is the first later instant: `Schedules.InstantPassedOver`, and
  `Schedules.PassedOverExactlyWhen`;
- an allocated membership has an effective attempt: `CandidateBacking.AllocatedWithoutAttempt`, where a
  forced analysis under way fails after the allocation, and `CandidateBacking.BackingLostExactlyWhen`.

## Model

| member | source | states |
|---|---|---|
| AllocationPolicy.ExpectedAllocation | internal/platform/allocation_policy.go:45-144 | the nested loops return the plan of the specification: members in arrival order, each given the feasible demand of least rank under the quantities left by the members before it |
| AllocationPolicy.Choose | internal/platform/allocation_policy.go:64-133 | for one member the running best ends as the first feasible demand of least rank, or as a wait with the reason that fits all demands |
| AllocationPolicy.Consider | internal/platform/allocation_policy.go:74-133 | one demand replaces the running best exactly when it is feasible and ranks strictly lower, and otherwise only moves the wait reason |
| AllocationPolicy.ConsideredIsBest | internal/platform/allocation_policy.go:110-132 | the running best over n demands becomes the least one over n + 1 |
| AllocationPolicy.ChoiceExists | internal/platform/allocation_policy.go:74-133 | a least-ranked choice exists exactly when some demand is feasible |
| AllocationPolicy.Better | internal/platform/allocation_policy.go:111-119 | the element-wise comparison is strict lexicographic order |
| AllocationPolicy.Examine | internal/platform/allocation_policy.go:88-109 | all required tags are held or not; the matched set and the preferred count, repeated codes counted |
| AllocationPolicy.CollectTags | internal/platform/allocation_policy.go:68-73 | the assertion reference of every usable tag, later entries winning |
| AllocationPolicy.SortedKeys | internal/platform/allocation_policy.go:123-127 | matched codes in increasing order whatever order the map yields them in |
| AllocationPolicy.LoadDemands | internal/platform/allocation_policy.go:55-61 | opening supply and last sequences by demand id, last entry winning |
| AllocationPolicy.Feed | internal/platform/allocation_policy.go:134-140 | a pick raises supply unless already counted, and takes the next sequence |
| AllocationPolicy.AllocateInTurn | internal/platform/allocation_policy.go:63-143 | the member loop folds choices and quantities in order |
| AllocationCanonical.SnapshotHash | internal/platform/allocation_policy.go:20-42 | sorting a copy in place gives the canonical form |
| AllocationCanonical.CanonicalKeepsPlan | internal/platform/allocation_policy.go:20-42 | planning the canonical form gives the same decisions and final quantities as planning the snapshot |
| AllocationCanonical.HashDeterminesPlan | internal/platform/allocation_policy.go:20-42 | equal hashes imply equal decision lists, including tags, references, order vectors and sequences |
| AllocationCanonical.TransportOrderIrrelevant | internal/platform/allocation_policy.go:24-25 | permuting members and demands changes neither hash nor plan |
| AllocationCanonical.ListOrderIrrelevant | internal/platform/allocation_policy.go:26-35 | permuting tags, allowed and counted ids, required and preferred tags changes neither hash nor plan |
| AllocationBatching.RunAppend | internal/platform/allocation_policy.go:63-142 | allocating A then B equals allocating the two lists in a row on the updated quantities |
| AllocationBatching.WaitersLeaveNoTrace | internal/platform/allocation_policy.go:134-140 | members nobody can take change no pick and no quantity |
| AllocationBatching.DrainEqualsRun | internal/platform/allocation_tasks.go:127-152 | any way of draining an orderly queue in batches yields the picks of one run over its assignable members |
| AllocationBatching.BatchingIsInvisible | internal/platform/allocation_tasks.go:127-152 | draining in batches of at most 100, with any waiting members woken in between, gives the assignments, sequences and final quantities of one unbounded run |
| AllocationBatching.SomeDrain | internal/platform/allocation_tasks.go:137-151 | a drain of a sorted queue always exists |
| AllocationFairness.ReceiversStayBalanced | internal/platform/allocation_policy.go:110-139 | among tied demands whoever received an assignment is at most one above the least supply, after any number of members |
| AllocationFairness.OthersInBetween | internal/platform/allocation_policy.go:110-139 | from equal supplies every other tied demand is picked between two picks of one demand |
| AllocationFairness.PicksRotate | internal/platform/allocation_policy.go:110-139 | from equal supplies no k consecutive assignments repeat a demand |
| AllocationFairness.WindowCoversAll | internal/platform/allocation_policy.go:110-139 | any k consecutive assignments reach all k tied demands |
| AllocationReference.Calculate | docs/plans/verify-two-agent-design.py:15-69 | the reference's loop equals its set-and-minimum specification |
| AllocationReference.PlanRefinesReference | docs/plans/verify-two-agent-design.py:37-69 | on comparable snapshots every member gets the reference's demand or waits as in it, with the same reason if and only if its allowed ids are empty or name a demand of the snapshot |
| AllocationReference.BuiltPlanAgrees | internal/platform/allocation_snapshot.go:150-165 | on every comparable snapshot the engine builds, plan and reference agree on every member, reasons included |
| AllocationStore.SnapshotMembersListed | internal/platform/allocation_snapshot.go:126-169 | a snapshot lists exactly the valid members among the task's ids, each once |
| AllocationCommit.SnapshotWellKeyed | internal/platform/allocation_snapshot.go:70-172 | a snapshot built from the tables has distinct member ids, demand ids and tag codes |
| AllocationCommit.SnapshotIsValidMembers | internal/platform/allocation_snapshot.go:59-69 | a member is in the snapshot exactly when it is one of the task's and valid |
| AllocationCommit.RunNumbersPicks | internal/platform/allocation_policy.go:132-140 | picks carry consecutive sequence numbers from the opening one to the final one |
| AllocationCommit.PlanDecidesSnapshot | internal/platform/allocation_policy.go:63-143 | a member has a decision exactly when it is in the snapshot |
| AllocationCommit.PlanExecutable | internal/platform/allocation_execute.go:50-112 | every decision of the current plan names an existing active membership, all of different candidates |
| AllocationCommit.ApplyMembers | internal/platform/allocation_execute.go:52-112 | the decision loop touches rows of assigned candidates only and activates no closed membership |
| AllocationCommit.ApplyAttempts | internal/platform/allocation_execute.go:88-95 | the loop appends one attempt with target per pick, in order |
| AllocationCommit.ApplyItems | internal/platform/allocation_execute.go:61-107 | the loop settles what was leased for decided members and alters no other item |
| AllocationInvariants.CreateKeeps | internal/platform/allocation_tasks.go:13-67 | creating a task keeps the invariant and no held fence is handed out again |
| AllocationInvariants.RecoverKeeps | internal/platform/allocation_tasks.go:113-119 | recovery keeps the invariant and leaves no running task in the scope |
| AllocationInvariants.ClaimKeeps | internal/platform/allocation_tasks.go:87-178 | a claim keeps the invariant, and a returned ticket holds the lease it describes |
| AllocationInvariants.ProcessKeeps | internal/platform/allocation_tasks.go:208-256 | building a request keeps the invariant, and everything still leased to the task is covered by the snapshot |
| AllocationInvariants.WorkersSurvive | internal/platform/allocation_tasks.go:267-281 | what a worker remembers stays sound under any transaction of others |
| AllocationSafety.CommitPlansCurrentState | internal/platform/allocation_execute.go:35-45 | a commit that passes the hash comparison carries the plan of the tables it finds |
| AllocationSafety.CommitKeeps | internal/platform/allocation_execute.go:16-143 | committing keeps the invariant: no lease is left behind, sequences stay distinct and below the next one |
| AllocationSafety.FailureKeeps | internal/platform/allocation_tasks.go:286-324 | ending or retrying a failed task keeps the invariant |
| AllocationSafety.CancelKeeps | internal/platform/allocation_api.go:244-262 | cancelling keeps the invariant and never releases another task's lease |
| AllocationSafety.PauseKeeps | internal/platform/allocation_api.go:369-399 | pausing and resuming keep the invariant |
| AllocationSafety.ScreenKeeps | internal/platform/allocation_snapshot.go:24-55 | saving a qualification keeps at most one active item per qualification, the newest |
| AllocationSafety.EditKeeps | internal/platform/allocation_migration.go:57-97 | edits of business rows by other parts of the platform, and new scopes coming in, keep the invariant |
| AllocationSafety.StepKeepsInv | internal/platform/allocation_tasks.go:179-200 | every step of every interleaving keeps the invariant |
| AllocationSafety.RunKeepsInv | internal/platform/allocation_tasks.go:179-200 | the invariant holds in every reachable state |
| AllocationSafety.FreshSystemOk | internal/platform/allocation_migration.go:22-36 | a database in which nothing was allocated yet satisfies the invariant |
| AllocationSafety.SequencesStayDistinct | internal/platform/allocation_execute.go:88-124 | in every reachable state two targets of one scope carry different sequences, both below the scope's next one |
| AllocationLinearisation.LoopPlaces | internal/platform/allocation_execute.go:52-112 | the decision loop changes memberships and workflows as if all picks were carried out at once |
| AllocationLinearisation.CommitIsAtomicAllocation | internal/platform/allocation_execute.go:16-143 | a successful execution is one atomic plan-and-assign step on the business tables in the state it commits in |
| AllocationLinearisation.StepRefines | internal/platform/allocation_tasks.go:208-266 | every protocol step is one abstract step, an allocation exactly when an execution commits |
| AllocationLinearisation.RunRefines | internal/platform/allocation_tasks.go:179-266 | every run of the protocol is a run of the abstract machine, whose allocations read a supply window at most a minute old |
| AllocationLinearisation.PicksAreEligible | internal/platform/allocation_execute.go:35-88 | a pick is for a pending member on its current resume without effective attempt and goes to a receiving demand whose required tags it holds |
| AllocationLinearisation.CommittedAssignmentIsEligible | internal/platform/allocation_execute.go:16-112 | the same for every assignment of every commit in every reachable state, at the commit step itself |
| AllocationLinearisation.CommitKeepsOneEffective | internal/platform/allocation_migration.go:100-112 | a commit never gives a candidate a second effective attempt, without relying on the unique index |
| AllocationCandidate.AppliedOpen | internal/platform/workflows.go:94-97 | a commit goes through only if the applications of all its picks are open |
| AllocationCandidate.CommitIsCandidatesAllocation | internal/platform/allocation_execute.go:67-104 | in every reachable state each pick of a commit meets the guards of the candidate's own allocation transaction, which leaves the candidate's rows as the commit leaves the tables |
| AllocationLedger.RunSupply | internal/platform/allocation_policy.go:134-137 | the loop's supply is the opening one plus the candidates newly allocated to the demand |
| AllocationLedger.LastAfter | internal/platform/allocation_snapshot.go:173-175 | the largest sequence read back is the one of the last pick for the demand |
| AllocationLedger.CommittedRecords | internal/platform/allocation_execute.go:93-124 | after a commit the targets are the old ones and one per pick, and the next sequence has moved by the number of picks |
| AllocationLedger.DemandReadBack | internal/platform/allocation_snapshot.go:98-110 | for one demand, supply and last sequence read from the tables equal the loop's final values |
| AllocationLedger.RecountEqualsLoop | internal/platform/allocation_snapshot.go:94-113 | the next snapshot reads exactly the quantities and next sequence with which the loop ended, provided no record crosses the seven-day window |
| AllocationLedger.CountedReadBack | internal/platform/allocation_snapshot.go:114-125 | a candidate that received nothing counts for the same demands as before |
| AllocationSeries.SeriesIsOneRun | internal/platform/allocation_tasks.go:127-266 | in any run without outside edits the picks a scope's executions commit are those of one loop over all the line-ups they planned, and the tables end with that loop's quantities |
| AllocationSeries.SeriesPlansEachOnce | internal/platform/allocation_tasks.go:127-266 | if nothing comes from outside, the commits of a scope plan each assignable member of their tasks exactly once, as it was at the start |
| AllocationSeries.SeriesIsOnePlan | internal/platform/allocation_tasks.go:127-152 | if besides the assignable members are planned in order of arrival, the picks of the whole run are those of one plan for all members, made at the start |
| AllocationRows.SuppliedOnRows | internal/platform/allocation_snapshot.go:173-175 | a candidate is supply of a demand if and only if one of his records for it was made in the seven days before and its attempt is open or passed, or was dispatched at some time |
| AllocationRows.LastSequenceOnRows | internal/platform/allocation_snapshot.go:173-175 | the last sequence is the largest one of exactly those records, in or out of the window, or 0 |
| AllocationRows.DispatchedStaysCounted | internal/platform/allocation_snapshot.go:98-125 | changing the status of a dispatched attempt changes no demand and no counted pair of any snapshot |
| AllocationRows.ValidOnRows | internal/platform/allocation_snapshot.go:59-69 | a member may be allocated if and only if it is screened, pending, on the current resume of a workflow under way, its facts are current, and no attempt of the candidate is open or passed |
| AllocationRows.LeaseOnRows | internal/platform/allocation_tasks.go:267-281 | unless scope and task rows carry the ticket's token and generation, the lease lies in the future and the scope is not paused for it, processing and committing answer that the lease is lost and nothing is written; otherwise neither does |
| AllocationRows.LateWorkerWritesNothing | internal/platform/allocation_tasks.go:156-166 | ninety seconds after its claim a worker writes nothing any more, in any run |
| AllocationRows.LeasedNotClaimable | internal/platform/allocation_tasks.go:93-95 | while a lease lies in the future its scope cannot be claimed |
| AllocationRows.ExpiredIsTakenOver | internal/platform/allocation_tasks.go:93-119 | a running task under an expired lease can be claimed and goes back for its next generation, or fails after the third |
| AllocationRows.RecoveredItems | internal/platform/allocation_tasks.go:117-119 | its leased work is pending again, or failed with it |
| AllocationRows.OldestFirst | internal/platform/allocation_tasks.go:120-120 | a claim takes the pending task with the smallest key |
| AllocationRows.BatchByArrival | internal/platform/allocation_tasks.go:137-137 | a batch is in order of creation and key, everybody in line outside it comes after everybody in it, and it has as many members as are in line, up to a hundred |
| AllocationRows.FailureOnRows | internal/platform/allocation_tasks.go:286-324 | a stale snapshot sends the task back for the next generation, up to the third; every other failure ends it; plan, leased work and lease follow and nothing else changes |
| AllocationRows.CancelOnRows | internal/platform/allocation_api.go:244-262 | cancelling changes the task, its open plans, its pending or leased work and its own lease, and nothing else |
| AllocationRows.CompletedNotCancelled | internal/platform/allocation_api.go:244-262 | cancelling a completed task changes nothing |
| AllocationRows.PauseOnRows | internal/platform/allocation_api.go:373-399 | pausing or resuming starts a new epoch and revision, takes the lease away, cancels unfinished tasks and gives their work back |
| AllocationRows.PausedPlans | internal/platform/allocation_api.go:387-399 | with its tasks a pause cancels their open plans, and no other plan |
| AllocationRows.PauseRefused | internal/platform/allocation_api.go:373-386 | a stale revision, or a live lease when resuming, is refused and changes nothing |
| AllocationRows.WakeOnRows | internal/platform/allocation_tasks.go:127-136 | waiting work wakes if and only if its scope changed since, its member is queued, it is the newest of its qualification and none is active |
| AllocationRows.ChangeMakesStale | internal/platform/allocation_tasks.go:102-106 | any change logged for a scope makes its waiting work wake |
| AllocationRows.CleanOnRows | internal/platform/allocation_snapshot.go:131-149 | of the members that may not be allocated those on the current resume without an attempt are set back, and the unsettled work of all of them is cancelled |
| AllocationRows.AssignOnRows | internal/platform/allocation_execute.go:67-107 | the rows a pick leaves: attempt with target, workflow, memberships of the candidate, work of the member |
| AllocationRows.DecisionNamesTags | internal/platform/allocation_policy.go:68-127 | a decision names, in increasing order, exactly the required tags and the preferred ones the member holds by a usable tag, with their references |
| AllocationRows.HashNoticesMembers | internal/platform/allocation_policy.go:20-42 | the hash changes when anything the snapshot shows of a member changes |
| AllocationRows.HashNoticesDemands | internal/platform/allocation_policy.go:20-42 | the hash changes when anything of a demand, the revision, the epoch or the next sequence changes |
| AllocationWrites.CreateOnRows | internal/platform/allocation_tasks.go:13-67 | a task is refused, answered with the existing one, or created pending, exactly under these conditions on pause, size and key |
| AllocationWrites.CreatedWork | internal/platform/allocation_tasks.go:58-65 | an execution attaches the free pending work of its members and adds work for the newest qualification of those that have none |
| AllocationWrites.RetryOnRows | internal/platform/allocation_api.go:263-279 | a retry is a new task like the old one under the caller's key, unless the old one is unfinished |
| AllocationWrites.ScreenOnRows | internal/platform/allocation_snapshot.go:24-55 | saving a screening keeps or adds its row, cancels the member's other unsettled work, and adds pending work unless some is active |
| AllocationWrites.TouchedOnRows | internal/platform/allocation_migration.go:57-78 | a change to a candidate's rows is logged for exactly the scopes in which he has a membership |
| AllocationWrites.CleanLogs | internal/platform/allocation_migration.go:57-78 | cleaning logs exactly the scopes of the candidates it sets back |
| AllocationWrites.ProcessOnRows | internal/platform/allocation_tasks.go:220-256 | the first transaction fails, completes the task, or cleans and asks for a plan, exactly under these conditions; the request carries the present moment and the revision after cleaning |
| AllocationWrites.LoopOnRows | internal/platform/allocation_execute.go:50-112 | the decision loop stops if and only if some assignment is for an unknown member or a closed application |
| AllocationWrites.CommitOnRows | internal/platform/allocation_execute.go:16-60 | a commit goes through if and only if it is permitted, its snapshot is at most a minute old and reads the same, its plan is recorded and every decision can be carried out; otherwise nothing changes |
| AllocationWrites.CommittedOnRows | internal/platform/allocation_execute.go:113-141 | task, plan, lease, revision and next sequence after a commit, everything else of these tables staying |
| AllocationWaiting.FitsMeans | internal/platform/allocation_policy.go:74-109 | whether some demand can take a member depends on reception and tags alone, not on quantities or the instant |
| AllocationWaiting.CommitPicksWanted | internal/platform/allocation_execute.go:35-60 | a commit assigns everybody of its task who is valid and fits a demand |
| AllocationWaiting.EditRests | internal/platform/allocation_migration.go:57-97 | an outside edit that the triggers log wakes whoever it may help |
| AllocationWaiting.FreshRests | internal/platform/allocation_migration.go:22-36 | a database without work starts without anybody waiting |
| AllocationWaiting.NoWakeUpIsLost | internal/platform/allocation_tasks.go:127-136 | in every run, work that waits although no change was logged since belongs to a member who is not valid or whom no demand of the scope would take |
| AllocationArrival.StepContends | internal/platform/allocation_tasks.go:113-266 | no step of the engine lets somebody contend for an assignment who did not before |
| AllocationArrival.BatchInTurn | internal/platform/allocation_tasks.go:127-152 | when a batch is formed, whoever contends outside it arrived after all of its members, and no other execution is under way |
| AllocationArrival.StepKeepsTurn | internal/platform/allocation_tasks.go:87-266 | crashes, recoveries, retries, pauses and cancellations keep it so |
| AllocationArrival.SeriesArrives | internal/platform/allocation_tasks.go:127-266 | in a run without executions asked for by hand the assignable members of a scope are planned in order of arrival |
| AllocationArrival.NobodyIsOvertaken | internal/platform/allocation_tasks.go:127-266 | from a state in which no execution of the scope is under way the members are assigned in order of creation and key, through all batches of the run |
| AllocationArrival.BatchesAreOnePlan | internal/platform/allocation_tasks.go:127-266 | the picks of the whole run are those of one plan for all members, made at the start, and the tables end with its quantities |
| AllocationFencing.StepMoves | internal/platform/allocation_tasks.go:113-166 | a lease is kept, dropped or replaced under a fresh token; terminal statuses stay; every claim is paid from the task's credit |
| AllocationFencing.ClaimedAtMostThreeTimes | internal/platform/allocation_tasks.go:113-163 | in any run a task is handed to a worker at most three times |
| AllocationFencing.TerminalForever | internal/platform/allocation_api.go:244-262 | completed and cancelled are absorbing, failed can only become cancelled |
| AllocationFencing.OneRunningPerScope | internal/platform/allocation_tasks.go:156-164 | in every reachable state at most one task of a scope runs; its token is the scope's lease token; none executes while the scope is paused |
| AllocationFencing.PausedScopeIsQuiet | internal/platform/allocation_api.go:387-399 | in every reachable state a paused scope has no pending or running execution |
| AllocationFencing.HeldOnlyIfHeldBefore | internal/platform/allocation_tasks.go:267-281 | no step gives a lease back to a ticket that had lost it |
| AllocationFencing.LostForever | internal/platform/allocation_tasks.go:267-281 | a lost lease stays lost in every run |
| AllocationFencing.StaleWorkerIsHarmless | internal/platform/allocation_tasks.go:225-228 | preparing, committing and failing with a lost lease change nothing, however late |
| AllocationFencing.ReleaseEndsOwnClaim | internal/platform/allocation_tasks.go:282-285 | releasing a lease ends exactly the claims under that token in that scope; whoever holds another lease still does, and the scope is free to be claimed |
| AllocationPlans.FirstRecordWins | internal/platform/allocation_execute.go:12-15 | the first plan recorded for a task and generation is kept, with its hash and decisions; recording again changes nothing, and other plans stay |
| AllocationPlans.CommitPlans | internal/platform/allocation_execute.go:113-139 | a commit turns only an open plan into a final one, and its task is completed with it |
| AllocationPlans.PlansNeverRewritten | internal/platform/allocation_execute.go:12-133 | in any run no recorded plan is lost, hash and decisions never change, and a committed or simulated plan stays exactly as it was |
| AllocationWork.LeasedMeansRunning | internal/platform/allocation_tasks.go:169-173 | in every reachable state a leased item belongs to a running execution that lists its member |
| AllocationWork.FinishedTaskHoldsNothing | internal/platform/allocation_execute.go:136-139 | in every reachable state a task that is not running holds no leased item |
| AllocationWork.ActiveItemIsUniqueAndNewest | internal/platform/allocation_migration.go:33-33 | in every reachable state at most one item per qualification is pending or leased, and it is the newest |
| AllocationWork.ClaimYieldsTask | internal/platform/allocation_tasks.go:93-173 | a scope selected because of a claimable item always yields a leased task with 1 to 100 members |
| AllocationWork.BatchTaskCreated | internal/platform/allocation_tasks.go:151-151 | the task of a batch is always new, its generated key being fresh |
| AllocationWork.SubmittingTwice | internal/platform/allocation_tasks.go:31-53 | the same request under the same key creates nothing and returns the first task |
| AllocationWork.ScreeningReplacesWork | internal/platform/allocation_snapshot.go:43-54 | after screening, unsettled work of the member is only for the new qualification, which has an active item |
| AllocationQuiescence.TakeWorkDescends | internal/platform/allocation_tasks.go:87-178 | every claim on a claimable scope lowers the measure, also one that returns nothing |
| AllocationQuiescence.BatchUsesFreeItems | internal/platform/allocation_tasks.go:133-152 | forming a batch uses up items that were free |
| AllocationQuiescence.WaitingFreesNothing | internal/platform/allocation_execute.go:121-132 | a wait-only commit logs no change and leaves none of its waiting items stale |
| AllocationQuiescence.AssigningShrinksQueue | internal/platform/allocation_execute.go:102-104 | a commit that assigns somebody shortens the queue |
| AllocationQuiescence.CleanCalm | internal/platform/allocation_snapshot.go:131-149 | cleaning queues nobody anew, and logs no change when the task's members are all queued and stay so |
| AllocationQuiescence.EngineDescends | internal/platform/allocation_tasks.go:179-266 | every engine step but the clock's lowers a lexicographic measure |
| AllocationQuiescence.ComesToRest | internal/platform/allocation_tasks.go:179-200 | in every infinite run without outside writers only the clock moves from some point on |
| AllocationQuiescence.CanDrain | internal/platform/allocation_tasks.go:179-200 | from every reachable state the engine alone reaches one with nothing in progress and nothing claimable now or later |
| AllocationDatabase.Database.constructor | internal/platform/allocation_migration.go:22-36 | the object holds exactly the given tables |
| AllocationDatabase.Database.Enqueue | internal/platform/allocation_tasks.go:58-65 | the insertion loop and attachment give the specified items |
| AllocationDatabase.Database.InsertWork | internal/platform/allocation_tasks.go:59-59 | insertion respects the unique active item of a qualification |
| AllocationDatabase.Database.Create | internal/platform/allocation_tasks.go:13-67 | creation has exactly the specified effect, including refusals and idempotent answers |
| AllocationDatabase.Database.OldestPending | internal/platform/allocation_tasks.go:120-120 | the first pending task a worker may take |
| AllocationDatabase.Database.Hand | internal/platform/allocation_tasks.go:156-173 | fence, lease, running status and leased items of a claim |
| AllocationDatabase.Database.ClaimScope | internal/platform/allocation_tasks.go:113-178 | the statements of a claim have exactly the specified effect |
| AllocationDatabase.Database.CleanRows | internal/platform/allocation_snapshot.go:126-149 | the clean-up loop restates and cancels as specified, or refuses as a whole |
| AllocationDatabase.Database.PrepareRequest | internal/platform/allocation_tasks.go:220-256 | the first transaction of processing has exactly the specified effect |
| AllocationDatabase.Database.Receive | internal/platform/allocation_policy.go:145-158 | an answer is accepted exactly when it is for this request and carries the independently computed plan; the first one per generation is recorded, as proposed or invalid |
| AllocationDatabase.Database.Assign | internal/platform/allocation_execute.go:67-107 | the rows written for one assigned member |
| AllocationDatabase.Database.ApplyDecision | internal/platform/allocation_execute.go:52-112 | one turn of the decision loop |
| AllocationDatabase.Database.Apply | internal/platform/allocation_execute.go:50-112 | the decision loop with its running maximum, or a refusal |
| AllocationDatabase.Database.SettleRows | internal/platform/allocation_execute.go:113-141 | sequence, observed revisions, plan, task and lease after the loop |
| AllocationDatabase.Database.CommitPlan | internal/platform/allocation_execute.go:16-143 | the second transaction has exactly the specified effect; a refused assignment rolls back |
| AllocationDatabase.Database.Fail | internal/platform/allocation_tasks.go:286-324 | failure handling has exactly the specified effect |
| AllocationDatabase.Database.Cancel | internal/platform/allocation_api.go:244-262 | cancelling has exactly the specified effect |
| AllocationDatabase.Database.Retry | internal/platform/allocation_api.go:263-279 | retrying has exactly the specified effect |
| AllocationDatabase.Database.Pause | internal/platform/allocation_api.go:373-399 | pausing and resuming have exactly the specified effect |
| AllocationDatabase.Database.Screen | internal/platform/allocation_snapshot.go:43-54 | saving a qualification has exactly the specified effect |
| CandidateSafety.SetApplicationMoves | internal/platform/applications.go:58-84 | a status change appends the event that replays it; a closed application is never overwritten |
| CandidateSafety.CancelAllMoves | internal/platform/workflows.go:30-50 | cancelling touches open attempts only, and without a source filter leaves none effective unless one has passed |
| CandidateSafety.CreateAttemptMoves | internal/platform/workflows.go:94-142 | a new attempt keeps the state sound when none was effective |
| CandidateSafety.ManualAssignMoves | internal/platform/workflows.go:143-182 | a manual assignment keeps one effective attempt and raises the revision by one |
| CandidateSafety.MutateMoves | internal/platform/workflows.go:209-432 | dispatch, transfer, cancellation and feedback keep the state sound; passing and the passed workflow go together |
| CandidateSafety.EditMoves | internal/platform/candidate_inputs.go:17-57 | a change of assessment inputs raises the revision and keeps the state sound |
| CandidateSafety.PrepareMoves | internal/platform/processing.go:97-247 | the preparation stages keep the state sound, forced runs included |
| CandidateSafety.ClaimMoves | internal/platform/processing.go:300-357 | a claim is only taken on a workflow that has not passed and has no effective attempt, at the current revision |
| CandidateSafety.FinishMoves | internal/platform/processing.go:411-512 | storing an analysis keeps the state sound whatever happened since the claim |
| CandidateSafety.AllocatedMoves | internal/platform/allocation_execute.go:71-104 | an allocation commit keeps one effective attempt without changing the revision |
| CandidateSafety.StopMoves | internal/platform/runs.go:524-568 | stopping a run keeps the state sound |
| CandidateWrites.OnlyExceptRemains | internal/platform/pools.go:11-22 | after closing memberships none of another resume is active, the excepted resume's and all inactive ones are untouched, and closing again changes nothing |
| CandidateWrites.TouchMakesCurrent | internal/platform/workflows.go:9-19 | the workflow is in progress on the resume, only that resume's memberships are active, and revision and claim stay; touching again changes nothing |
| CandidateWrites.CancelGoes | internal/platform/workflows.go:30-50 | while open attempts have open applications, cancelling attempts is never refused |
| CandidateWrites.HeldWrites | internal/platform/processing.go:428-512 | under a held claim the storing transaction is refused exactly when the analysis was interrupted and the run not cancelled; otherwise it leaves no effective attempt and raises the revision by one |
| CandidateWrites.MutateQuiet | internal/platform/workflows.go:209-432 | actions on attempts keep frozen snapshots and leave no open attempt with a closed application |
| CandidateRuns.PlayMoves | internal/platform/processing.go:300-513 | all guarantees hold across any run of all transactions |
| CandidateRuns.OneEffectiveAlways | internal/platform/workflows.go:94-182 | in every reachable state at most one attempt is effective, and it has passed exactly when the workflow has |
| CandidateRuns.PassedForever | internal/platform/workflows.go:157-159 | a passed attempt and its workflow stay passed in every run |
| CandidateRuns.EventLogReplays | internal/platform/applications.go:62-83 | replaying the events of any run leads each application from its first to its last status, every event starting where the previous one ended |
| CandidateRuns.ClosedForever | internal/platform/applications.go:56-71 | a closed application keeps status, reason and completion time and gets no event, in every run |
| CandidateRuns.TalentPoolOnlyWhenAllClosed | internal/platform/applications.go:97-112 | a candidate enters the talent pool only with every application closed |
| CandidateRuns.RevisionsGrow | internal/platform/workflows.go:27-29 | revisions never decrease and every human change raises them by one |
| CandidateRuns.StoredExactlyWhen | internal/platform/processing.go:428-449 | an outcome is stored if and only if the item is unfinished, claim token and revision are those taken, the run is not cancelled and the analysis not interrupted |
| CandidateRuns.RefusedExactlyWhen | internal/platform/processing.go:453-455 | under a held claim the transaction is refused if and only if the analysis was interrupted and the run is not cancelled |
| CandidateRuns.NoHumanEditLost | internal/platform/processing.go:411-449 | if an outcome is stored, no human change or import was carried out since its claim, in any interleaving |
| CandidateRuns.StaleAnalysisWritesNothing | internal/platform/processing.go:431-437 | after a human change the finished analysis alters nothing but its own item |
| CandidateRuns.TransactionSteady | internal/platform/processing.go:300-357 | a transaction that leaves the revision alone closes no application, changes no frozen snapshot and adds no attempt but the engine's |
| CandidateRuns.FreshDeskOk | internal/platform/applications.go:19-30 | a candidate without attempts and claims who has not passed is in order |
| CandidateOutcomes.ApplicationOutcome | internal/platform/applications.go:58-84 | setting a status writes and logs it, does nothing if status and reason are there already, and is refused for a closed application |
| CandidateOutcomes.ActionOutcome | internal/platform/workflows.go:209-432 | an action is carried out if and only if it is permitted and the attempt's state allows it; attempt, application with its event, workflow and memberships afterwards, for each of the five actions; no other attempt or application changes |
| CandidateOutcomes.CancelledRows | internal/platform/workflows.go:30-50 | exactly the open attempts of the given sources become cancelled, and their applications with them |
| CandidateOutcomes.CreatedRows | internal/platform/workflows.go:94-142 | an attempt is created if and only if the application is open; the rows it adds and changes |
| CandidateOutcomes.ManualOutcome | internal/platform/workflows.go:143-182 | a manual assignment goes through if and only if the application is open, the candidate has not passed and the department receives; the rows it leaves |
| CandidateOutcomes.ConcludeOutcome | internal/platform/processing.go:471-511 | what storing a failure, a rejection or an acceptance writes |
| CandidateOutcomes.FinishOutcome | internal/platform/processing.go:411-512 | a finished analysis does nothing, skips, stops, is refused or stores, exactly under these conditions on item, claim, revision and run |
| CandidateOutcomes.PassedTogether | internal/platform/workflows.go:383-412 | in every run from a candidate without attempts and closed applications, an application has passed if and only if an attempt of its resume has |
| CandidateStages.ClaimOutcome | internal/platform/processing.go:300-357 | when a claim is taken, for twenty seconds under a fresh token, and what happens to the item otherwise |
| CandidateStages.PrepareOutcome | internal/platform/processing.go:97-247 | what the two preparation stages do to item, workflow, memberships and application in each case |
| CandidateStages.StopOutcome | internal/platform/runs.go:524-568 | stopping a run ends its unfinished items, drops its claim and unblocks the application under assessment |
| CandidateStages.CancelledRunStops | internal/platform/processing.go:107-112 | no item of a run to be cancelled is prepared or claimed any more |
| CandidateStages.AllocatedOutcome | internal/platform/allocation_execute.go:67-104 | an allocation is written if and only if the membership is pending on the current resume of a workflow under way, the application open and no attempt effective; the rows it leaves |
| CandidateStages.CleanOutcome | internal/platform/allocation_snapshot.go:131-149 | membership and application of a member that lost its validity fall back together, unless the application is closed |
| CandidateStages.EditOutcome | internal/platform/candidate_inputs.go:17-57 | a change of facts raises the revision, drops the claim, sets pending memberships back with their applications and blocks those under assessment |
| CandidateStages.PooledAndImported | internal/platform/pools.go:149-238 | work on a membership is possible for the current resume only, revising tags only while it waits; like an import it raises the revision and drops the claim |
| CandidateStages.SubmitOutcome | internal/platform/preparation.go:154-183 | the snapshot of a submitted item has every wish with its fields, rejected exactly if its application is closed |
| CandidateStages.RenewOutcome | internal/platform/processing.go:360-372 | a renewal extends exactly a claim that is still the worker's at the revision it took |
| CandidateBacking.AllocatedWithoutAttempt | internal/platform/processing.go:464-486 | a concrete run of a new candidate, in which a forced analysis fails after an allocation, ends with an allocated membership and no effective attempt |
| CandidateBacking.BackingLostExactlyWhen | internal/platform/processing.go:464-486 | from a state where an allocated membership is backed by an effective attempt, every event keeps it so if and only if it is not a stored failure for the resume a membership is allocated for |
| CandidateBacking.UnforcedRunsKeepBacking | internal/platform/applications.go:129-156 | in any run without forced reprocessing an allocated membership is backed in every reachable state |
| CandidateDesk.Desk.constructor | internal/platform/applications.go:19-30 | the object holds exactly the given rows |
| CandidateDesk.Desk.SetState | internal/platform/applications.go:58-84 | the status and log statements have exactly the specified effect |
| CandidateDesk.Desk.CancelOpenAttempts | internal/platform/workflows.go:30-50 | the cancellation loop has exactly the specified effect, or is refused |
| CandidateDesk.Desk.AnyRemaining | internal/platform/applications.go:100-103 | some application is not closed |
| CandidateDesk.Desk.EnterTalentPool | internal/platform/applications.go:97-112 | talent pool or waiting, by what remains |
| CandidateDesk.Desk.DepartmentRejected | internal/platform/applications.go:114-126 | what follows a department's rejection |
| CandidateDesk.Desk.NewAttempt | internal/platform/workflows.go:94-142 | creating an attempt has exactly the specified effect, or is refused |
| CandidateDesk.Desk.AssignManually | internal/platform/workflows.go:143-182 | manual assignment commits as specified or rolls every row back |
| CandidateDesk.Desk.MutateAttempt | internal/platform/workflows.go:220-431 | an action on an attempt commits as specified or rolls every row back |
| CandidateDesk.Desk.Commission | internal/platform/allocation_execute.go:67-104 | the candidate's part of an allocation commit, or a full rollback |
| CandidateDesk.Desk.FinishAnalysis | internal/platform/processing.go:411-512 | the second transaction of an analysis commits as specified or rolls every row back |
| CandidateDesk.Desk.Store | internal/platform/processing.go:471-511 | storing failure, rejection or admission |
| CandidateDesk.Desk.ContinueWith | internal/platform/applications.go:159-203 | the item goes on to its next volunteer or ends |
| Preference.PrepareSnapshot | internal/platform/policy.go:44-79 | the loop returns the frozen order and the first eligible wish with its rank |
| Preference.OrderedByPreference | internal/platform/policy.go:47-62 | the order is by preferred entity and date, and equally preferred wishes keep their order |
| Preference.OrderOnFields | internal/platform/policy.go:44-62 | no wish for the preferred entity stands behind one for another; among wishes alike in that, dates ascend, undated ones last |
| Orders.StringByFirstDifference | internal/platform/policy.go:60-61 | texts compare by their first different character, a beginning of a text coming before it |
| Preference.CurrentOnFields | internal/platform/policy.go:63-79 | the next volunteer is an open wish for the preferred entity if there is one, of the earliest date among its like; none exactly when all are rejected |
| Preference.RetryOnFields | internal/platform/policy.go:63-79 | a wish to retry is the only one considered |
| Preference.AgendaAdvances | internal/platform/applications.go:159-173 | preparing the snapshot again after rejecting the current volunteer takes exactly the head off what lies ahead, a wish to retry coming first |
| Preference.RejectionsFollowPreference | internal/platform/applications.go:159-173 | successive rejections assess exactly the open wishes, in preference order, each once; a wish to retry comes first |
| Continuation.SubmittedAhead | internal/platform/preparation.go:154-183 | a frozen snapshot has every wish once, and exactly those with an open application lie ahead |
| Continuation.RejectionHandsOver | internal/platform/applications.go:159-203 | a stored rejection closes the application and leaves the item waiting for its next volunteer at the revision the workflow then has, or ends it with the candidate in the talent pool exactly when nothing remains |
| Continuation.RejectedInPreferenceOrder | internal/platform/applications.go:159-203 | in any run the volunteers rejected through an item are those that lay ahead of it, in preference order, each once and from the first on; while it is unfinished exactly the others still lie ahead; if a rejection ended it, none was left out |
| JobPolicy.DeriveJobPolicy | internal/platform/job_configuration.go:24-133 | the loops compute the derivation |
| JobPolicy.KeepRules | internal/platform/job_configuration.go:31-37 | rules of known jobs are kept in order |
| JobPolicy.RouteJobs | internal/platform/job_configuration.go:38-58 | pools and rules after the job loop |
| JobPolicy.GroupJobs | internal/platform/job_configuration.go:59-62 | jobs grouped by posting, in order |
| JobPolicy.AddStandards | internal/platform/job_configuration.go:69-89 | missing, unmapped postings get a standard |
| JobPolicy.RefreshOne | internal/platform/job_configuration.go:91-130 | one generated standard brought up to date |
| JobPolicy.RefreshStandards | internal/platform/job_configuration.go:90-131 | all standards brought up to date in place |
| JobPolicy.RoutingSettles | internal/platform/job_configuration.go:31-58 | pools and rules are the same after every further pass |
| JobPolicy.AddMissingIsNews | internal/platform/job_configuration.go:69-89 | the new standards are those of all missing and unmapped postings, independent of each other |
| JobPolicy.RefreshKeeps | internal/platform/job_configuration.go:91-130 | refreshing is idempotent, keeps the code, and rewrites postings exactly of standards with live source jobs |
| JobPolicy.ThirdPassIsIdle | internal/platform/job_configuration.go:24-133 | for fixed jobs a third derivation changes nothing |
| JobPolicy.SecondPassIsIdleWhen | internal/platform/job_configuration.go:72-116 | a second derivation changes nothing if and only if every mapped posting without a standard has a mapping that is not rewritten |
| JobPolicy.OwnPostingsSettleAtOnce | internal/platform/job_configuration.go:107-116 | one pass settles when rewritten standards list their own posting only |
| JobPolicy.OnePassIsNotEnough | internal/platform/job_configuration.go:72-116 | a concrete policy that a second pass still changes |
| JobPolicy.TwoPassesCover | internal/platform/job_configuration.go:69-89 | after two passes every posting has a standard or a mapping |
| JobPolicy.NeverActivates | internal/platform/job_configuration.go:46-58 | an active rule after derivation was there and active before |
| JobPolicy.PoolsKept | internal/platform/job_configuration.go:42-45 | no pool is removed or changed |
| JobPolicy.StandardsKept | internal/platform/job_configuration.go:90-94 | no standard is removed, and those made by hand are untouched |
| JobPolicyRows.NormalOnRows | internal/platform/crud.go:19-26 | names are normalised character by character: white space goes, capitals become small letters |
| JobPolicyRows.RoutedOutcome | internal/platform/job_configuration.go:38-58 | every active job with named entity and position has a pool and a rule: a new one switched off, one pointing to another entity's pool redirected and switched off, any other unchanged |
| JobPolicyRows.KeptOnRows | internal/platform/job_configuration.go:31-37 | rules of jobs that no longer exist go, the others stay in order |
| JobPolicyRows.GroupOnRows | internal/platform/job_configuration.go:59-62 | behind a posting are exactly the active jobs with that entity and posting, in order |
| JobPolicyRows.NewStandardsOnRows | internal/platform/job_configuration.go:69-89 | a posting gets a new standard if and only if no standard has its code or lists it; the standard's fields |
| JobPolicyRows.RefreshOutcome | internal/platform/job_configuration.go:91-130 | the fields of a refreshed standard, and when it is marked as missing its source, in conflict or incomplete |
| Evidence.DocumentLines | internal/platform/kernel.go:339-348 | the numbered lines of all pages |
| Evidence.Verify | internal/platform/kernel.go:349-363 | the quote check accepts exactly the specified quotes |
| Evidence.SelectedLines | internal/platform/kernel.go:355-361 | an accepted range is a run of consecutive lines of the named page |
| Evidence.AcceptedQuoteIsOnPage | internal/platform/kernel.go:349-363 | an accepted quote, without white space, is a contiguous part of that single page |
| Evidence.CheckTags | internal/platform/kernel.go:375-391 | tags are known, distinct and evidenced; doubtful ones are downgraded |
| Evidence.CheckMatches | internal/platform/kernel.go:392-420 | the running last score and reference accept exactly the ranked lists |
| Evidence.ValidateAnalysis | internal/platform/kernel.go:339-427 | the checks together accept exactly the specified analyses |
| Evidence.AcceptedEvidenceIsReal | internal/platform/kernel.go:364-420 | every piece of evidence of an accepted analysis stands on its page |
| Evidence.AcceptedIsRanking | internal/platform/kernel.go:392-427 | an accepted analysis ranks exactly the requested jobs, each once, best first |
| Evidence.StripsOnRows | internal/platform/kernel.go:307-314 | stripping drops exactly the white space characters |
| Evidence.LinesOnRows | internal/platform/kernel.go:343-348 | a page's lines contain no line break and, joined by line breaks, are the page |
| Evidence.BeforeOnRows | internal/platform/kernel.go:343-348 | lines are numbered through all pages |
| Evidence.VerifiedExactlyWhen | internal/platform/kernel.go:349-363 | a quote is accepted if and only if it names at most 101 consecutive lines of its page, has at least eight characters besides white space and stands in these lines |
| Evidence.ScoreIsAverage | internal/platform/kernel.go:401-409 | a score is the weighted sum up to half a ten-thousandth and lies between the lowest and the highest dimension |
| Evidence.RankingIsAccepted | internal/platform/kernel.go:364-427 | every ranking of the requested jobs, best first, with genuine evidence, known distinct tags and scores as computed is accepted |
| Schedules.NextIsLater | internal/platform/schedules.go:131-148 | the next run is strictly after the clock and after the previous run |
| Schedules.NextIsFirstBySeconds | internal/platform/schedules.go:142-146 | in whole seconds no earlier later instant of the plan exists |
| Schedules.PassedOverExactlyWhen | internal/platform/schedules.go:142-146 | an instant is passed over if and only if whole periods have passed on the second and the plan's fraction is larger |
| Schedules.InstantPassedOver | internal/platform/schedules.go:142-146 | a daily plan with a fraction of a second passes over an instant that is still ahead |
| Schedules.OnHoldIsQuiet | internal/platform/schedules.go:226-249 | a plan on hold does not fire; resumed before its next run it is as it was, resumed later it runs strictly after the clock |
| Schedules.CancelledForever | internal/platform/schedules.go:221-225 | a cancelled plan never fires again and never changes |
| Schedules.StepKeepsSound | internal/platform/schedules.go:220-250 | every change of a plan keeps its instants anchored and increasing |
| Schedules.NoInstantFiresTwice | internal/platform/schedules.go:281-371 | over any run fired instants strictly increase and are the start plus whole periods, whatever the clock shows |
| Schedules.NextOnRows | internal/platform/schedules.go:131-148 | the next run is whole days or weeks ahead, after the clock, and in whole seconds one period earlier would not be |
| Schedules.TriggerOutcome | internal/platform/schedules.go:281-371 | a trigger fires exactly an active plan that is due; the plan then fails, is over, or has its next run after the clock |
| Schedules.OwnerOutcome | internal/platform/schedules.go:217-250 | what pausing, resuming and cancelling do to a plan in each state |
| Schedules.ScheduleRow.constructor | internal/platform/schedules.go:185-187 | a new plan is active and due at its start |
| Schedules.ScheduleRow.Fire | internal/platform/schedules.go:281-371 | a trigger has exactly the specified effect |
| Schedules.ScheduleRow.Restart | internal/platform/schedules.go:231-249 | resuming has exactly the specified effect |
| Schedules.ScheduleRow.Handle | internal/platform/schedules.go:217-250 | every trigger and request of the owner has the effect of its step, and what is refused changes nothing |

## Left out

- HTTP routing, request parsing, serialisation, schema validation, pagination, imports and exports, the web frontend: no state of their own.
- Permissions appear as booleans that abort a step; grants and visibility rules are not modelled.
- SHA-256 and JSON encoding: the hash of a snapshot is its canonical form, codes of pools and standards are values built from normalised names. Group codes are visited in a given fixed order in place of the order of their hashes.
- PostgreSQL: a transaction is one atomic step, "skip locked" means that any claimable scope may be taken, serialisation failures are one of the failures a worker may report.
- Redis wake-ups and polling intervals: they are hints and do not change what a worker finds.
- AllocationStore: the change log gets one entry per affected scope for each group of writes to one candidate, where the trigger adds one per row; only the newest entry of a scope is ever read.
- AllocationStore: the newest qualification of a member is the one with the largest key; the program orders by revision, which grows with the key.
- AllocationStore: the checks of standard, pool, source file and candidate inputs inside the validity test are one boolean per member, which outside edits may change.
- AllocationSafety.ScreenKeeps: saving a qualification is an atomic step of its own; the transactions around it are outside edits.
- Task progress, audit rows, message texts, name snapshots and notification data: nothing depends on them.
- AllocationReference.PlanRefinesReference: compares snapshots without already counted pairs and with duplicate-free tag lists, because the reference calculation has neither.
- AllocationLedger.RecountEqualsLoop: requires that no record enters or leaves the seven-day window between the two readings, because the recount would then differ for that reason alone.
- CandidateFile: one candidate at a time, with the parts of a run that concern it; the frozen snapshot of an item is its wishes, the preferred entity, the wish to retry and the verdict of the preparation stages. A run is submitted and its snapshots frozen in one step; the program does so in two. Deleting a resume, and an import that moves an application to another candidate, are not modelled.
- CandidateFile: profile, decision, school tag and job fields written beside the state changes are not modelled.
- Continuation: the preferred entity of a candidate is given; deriving it from provinces is a table lookup. Admission rules and the resolution of standards give a verdict.
- JobPolicy: normalising names strips common white space and lower-cases Latin letters; other scripts' case rules are not modelled. Tag definitions pass through the derivation unchanged and are not represented.
- The impact of a configuration change on queued memberships (internal/platform/job_configuration.go:159-190) is an outside edit of the allocation protocol, where it closes memberships and cancels unsettled items, and an event of the candidate; which standards count as changed is not computed.
- AllocationSeries.SeriesIsOnePlan: takes the order of arrival as a condition, because a run may carry out tasks callers made for members of their choice; `AllocationArrival.SeriesArrives` proves the order where nobody does.
- AllocationArrival.BatchesAreOnePlan: leaves out executions asked for by hand in that scope, because the caller chooses their members and with them the order, and requires that no record crosses the seven-day window between two commits.
- AllocationWaiting.NoWakeUpIsLost: a transaction is one step, so a change has its place in the log when it commits; in the database numbers are drawn before the commit and may become visible in another order.
- Evidence: dimensions, scores and confidence are real numbers; rounding of binary floating point is not modelled. Identity, checksum and terminal-state checks precede the modelled part.
- Schedules: a fixed-offset zone makes calendar days whole multiples of 24 hours; resolving the candidates of a round is a boolean.
